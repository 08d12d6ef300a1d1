/** What the VM deployer promises, stated over the steps, calls and error of its runs. */
module VMDeployerProperties {
  import opened Common
  import opened EventLog
  import opened VMDeployer

  /** Every stop, unmount and delete call on the existing VM succeeds. */
  predicate TeardownSucceeds(vm: VM, deployment: Deployment)
  {
    && (vm.stopErr.None? || deployment.jobs == [])
    && (forall d :: d in vm.disks ==> d !in vm.unmountDiskErr)
    && vm.deleteErr.None?
  }

  /** A teardown in which nothing fails: one step and one call per job and per disk, in order. */
  lemma TeardownWhenAllSucceed(vm: VM, deployment: Deployment)
    requires TeardownSucceeds(vm, deployment)
    ensures TeardownRun(vm, deployment) == Run(
      [StepFor(WaitingStepName(vm.cid), WrapErr("Agent unreachable", vm.waitToBeReadyErr))]
        + StoppedSteps(deployment.jobs) + UnmountedSteps(vm.disks) + [FinishedStep(DeletingStepName(vm.cid))],
      [Waited(vm.cid, ExistingVMWaitTimeout, WaitDelay)] + StopCalls(vm.cid, |deployment.jobs|)
        + [DisksListed(vm.cid)] + UnmountCalls(vm.cid, vm.disks) + [Deleted(vm.cid)],
      None)
  {
    TeardownReachesDelete(vm, deployment);
  }

  /** When stopping and unmounting succeed, the teardown reaches the delete step, whose
      outcome is the teardown's. */
  lemma TeardownReachesDelete(vm: VM, deployment: Deployment)
    requires vm.stopErr.None? || deployment.jobs == []
    requires forall d :: d in vm.disks ==> d !in vm.unmountDiskErr
    ensures TeardownRun(vm, deployment) == Run(
      PreDeleteWaitRun(vm).steps + StoppedSteps(deployment.jobs) + UnmountedSteps(vm.disks) + DeleteRun(vm).steps,
      PreDeleteWaitRun(vm).calls + StopCalls(vm.cid, |deployment.jobs|)
        + [DisksListed(vm.cid)] + UnmountCalls(vm.cid, vm.disks) + DeleteRun(vm).calls,
      DeleteRun(vm).err)
  {
    FirstFailingDiskAt(vm, vm.disks, |vm.disks|);
    assert StopRun(vm, deployment.jobs) == Run(StoppedSteps(deployment.jobs), StopCalls(vm.cid, |deployment.jobs|), None);
    assert UnmountRun(vm, vm.disks) == Run(UnmountedSteps(vm.disks), UnmountCalls(vm.cid, vm.disks), None);
    FourSucceedingRuns(PreDeleteWaitRun(vm), StopRun(vm, deployment.jobs), ListDisksRun(vm),
                       UnmountRun(vm, vm.disks), DeleteRun(vm));
  }

  /** Four runs that succeed followed by a fifth, when the third reports no step. */
  lemma FourSucceedingRuns(first: Run, second: Run, third: Run, fourth: Run, last: Run)
    requires first.err.None? && second.err.None? && third.err.None? && fourth.err.None?
    requires third.steps == []
    ensures Then(first, Then(second, Then(third, Then(fourth, last)))) == Run(
      first.steps + second.steps + fourth.steps + last.steps,
      first.calls + second.calls + third.calls + fourth.calls + last.calls,
      last.err)
  {
    ConcatAssoc(first.steps, second.steps, fourth.steps, last.steps);
    assert third.steps + (fourth.steps + last.steps) == fourth.steps + last.steps;
    ConcatAssoc(first.calls, second.calls, third.calls, fourth.calls + last.calls);
    assert first.calls + second.calls + third.calls + fourth.calls + last.calls
        == first.calls + second.calls + third.calls + (fourth.calls + last.calls);
  }

  /** With an existing VM and every collaborator succeeding: wait, one stop step per job,
      one unmount step per disk in listed order, delete, create; all Finished, the created VM returned. */
  lemma ExistingVMAllSucceed(vm: VM, created: VM, deployment: Deployment, stemcell: Stemcell)
    requires vm.waitToBeReadyErr.None? && TeardownSucceeds(vm, deployment)
    ensures DeployRun(VMManager(Some(vm), Ok(created)), deployment, stemcell) == Run(
      [FinishedStep(WaitingStepName(vm.cid))] + StoppedSteps(deployment.jobs) + UnmountedSteps(vm.disks)
        + [FinishedStep(DeletingStepName(vm.cid)), FinishedStep(CreatingStepName(stemcell.cid))],
      [Waited(vm.cid, ExistingVMWaitTimeout, WaitDelay)] + StopCalls(vm.cid, |deployment.jobs|)
        + [DisksListed(vm.cid)] + UnmountCalls(vm.cid, vm.disks)
        + [Deleted(vm.cid), Created(stemcell, deployment), Promoted(stemcell.cid)],
      None)
  {
    TeardownWhenAllSucceed(vm, deployment);
  }

  /** The tested scenario: one job, no disks, everything succeeds; exactly four steps. */
  lemma ExistingVMScenario(vm: VM, created: VM, job: Job, deployment: Deployment, stemcell: Stemcell)
    requires deployment.jobs == [job] && vm.disks == []
    requires vm.waitToBeReadyErr.None? && vm.stopErr.None? && vm.deleteErr.None?
    ensures DeployRun(VMManager(Some(vm), Ok(created)), deployment, stemcell).steps == [
      Step("Waiting for the agent on VM '" + vm.cid + "'", [Started, Finished], ""),
      Step("Stopping '" + job.name + "'", [Started, Finished], ""),
      Step("Deleting VM '" + vm.cid + "'", [Started, Finished], ""),
      Step("Creating VM from stemcell '" + stemcell.cid + "'", [Started, Finished], "")]
    ensures DeployRun(VMManager(Some(vm), Ok(created)), deployment, stemcell).err.None?
  {
    ExistingVMAllSucceed(vm, created, deployment, stemcell);
    assert StoppedSteps(deployment.jobs) == [FinishedStep(StoppingStepName(job.name))];
    assert UnmountedSteps(vm.disks) == [];
    assert WaitingStepName(vm.cid) == "Waiting for the agent on VM '" + vm.cid + "'";
    assert StoppingStepName(job.name) == "Stopping '" + job.name + "'";
    assert DeletingStepName(vm.cid) == "Deleting VM '" + vm.cid + "'";
    assert CreatingStepName(stemcell.cid) == "Creating VM from stemcell '" + stemcell.cid + "'";
  }

  /** The existing VM's agent is probed first, with a 10 second timeout and a 500 ms delay. */
  lemma PreDeleteWaitParameters(manager: VMManager, deployment: Deployment, stemcell: Stemcell)
    requires manager.current.Some?
    ensures DeployRun(manager, deployment, stemcell).calls[0] == Waited(manager.current.value.cid, 10_000, 500)
  {
  }

  /** A failed pre-delete wait is reported as Failed with "Agent unreachable: <err>", and
      changes nothing else: the same calls, the same later steps, the same result. */
  lemma UnreachableAgentIsNotFatal(vm: VM, e: string, create: Result<VM>, deployment: Deployment, stemcell: Stemcell)
    ensures
      var failing := DeployRun(VMManager(Some(vm.(waitToBeReadyErr := Some(e))), create), deployment, stemcell);
      var responsive := DeployRun(VMManager(Some(vm.(waitToBeReadyErr := None)), create), deployment, stemcell);
      && failing.steps[0] == FailedStep(WaitingStepName(vm.cid), Wrap("Agent unreachable", e))
      && responsive.steps[0] == FinishedStep(WaitingStepName(vm.cid))
      && failing.steps[1..] == responsive.steps[1..]
      && failing.calls == responsive.calls
      && failing.err == responsive.err
  {
    var failingVM, responsiveVM := vm.(waitToBeReadyErr := Some(e)), vm.(waitToBeReadyErr := None);
    var failingManager := VMManager(Some(failingVM), create);
    var responsiveManager := VMManager(Some(responsiveVM), create);
    TeardownIgnoresWait(failingVM, responsiveVM, deployment);
    assert CreateRun(failingManager, deployment, stemcell) == CreateRun(responsiveManager, deployment, stemcell);
    assert PreDeleteWaitRun(failingVM).steps == [FailedStep(WaitingStepName(vm.cid), Wrap("Agent unreachable", e))];
    SameAfterFirstStep(PreDeleteWaitRun(failingVM), PreDeleteWaitRun(responsiveVM),
                       StopAndDeleteRun(failingVM, deployment), CreateRun(failingManager, deployment, stemcell));
  }

  /** What follows the pre-delete wait does not look at the wait's outcome. */
  lemma TeardownIgnoresWait(v1: VM, v2: VM, deployment: Deployment)
    requires v1.(waitToBeReadyErr := None) == v2.(waitToBeReadyErr := None)
    ensures StopAndDeleteRun(v1, deployment) == StopAndDeleteRun(v2, deployment)
  {
    assert v1.cid == v2.cid && v1.stopErr == v2.stopErr && v1.disks == v2.disks
        && v1.unmountDiskErr == v2.unmountDiskErr && v1.deleteErr == v2.deleteErr;
    assert StopRun(v1, deployment.jobs) == StopRun(v2, deployment.jobs);
    assert ListDisksRun(v1) == ListDisksRun(v2);
    assert FirstFailingDisk(v1, v1.disks) == FirstFailingDisk(v2, v2.disks);
    assert UnmountRun(v1, v1.disks) == UnmountRun(v2, v2.disks);
    assert DeleteRun(v1) == DeleteRun(v2);
  }

  /** Two runs that differ only in a first, non-fatal step stay the same after that step. */
  lemma SameAfterFirstStep(first1: Run, first2: Run, rest: Run, create: Run)
    requires first1.err.None? && first2.err.None? && first1.calls == first2.calls
    requires |first1.steps| == 1 && |first2.steps| == 1
    ensures Then(Then(first1, rest), create).steps[0] == first1.steps[0]
    ensures Then(Then(first2, rest), create).steps[0] == first2.steps[0]
    ensures Then(Then(first1, rest), create).steps[1..] == Then(Then(first2, rest), create).steps[1..]
    ensures Then(Then(first1, rest), create).calls == Then(Then(first2, rest), create).calls
    ensures Then(Then(first1, rest), create).err == Then(Then(first2, rest), create).err
  {
    if rest.err.Some? {
      assert (first1.steps + rest.steps)[1..] == rest.steps;
      assert (first2.steps + rest.steps)[1..] == rest.steps;
    } else {
      assert (first1.steps + rest.steps + create.steps)[1..] == rest.steps + create.steps;
      assert (first2.steps + rest.steps + create.steps)[1..] == rest.steps + create.steps;
    }
  }

  /** A failing stop aborts the deploy: its step is Failed with "Stopping VM: <err>", the
      error carries the cause, and the VM is neither deleted nor replaced. */
  lemma StopFailureIsFatal(vm: VM, e: string, create: Result<VM>, deployment: Deployment, stemcell: Stemcell)
    requires vm.stopErr == Some(e) && deployment.jobs != []
    ensures
      var r := DeployRun(VMManager(Some(vm), create), deployment, stemcell);
      && r.err == Some(Wrap("Stopping VM", e))
      && Contains(r.err.value, e)
      && |r.steps| == 2
      && r.steps[1] == FailedStep(StoppingStepName(deployment.jobs[0].name), Wrap("Stopping VM", e))
      && (forall call :: call in r.calls ==> !call.Deleted? && !call.Created? && !call.Unmounted?)
  {
    WrapContainsCause("Stopping VM", e);
  }

  /** A failing unmount aborts the deploy: its step is Failed with
      "Unmounting disk '<disk>' from VM '<vm>': <err>", the disks after it are left alone,
      and the VM is neither deleted nor replaced. */
  lemma UnmountFailureIsFatal(vm: VM, k: nat, create: Result<VM>, deployment: Deployment, stemcell: Stemcell)
    requires vm.stopErr.None? || deployment.jobs == []
    requires k < |vm.disks| && vm.disks[k] in vm.unmountDiskErr
    requires forall j :: 0 <= j < k ==> vm.disks[j] !in vm.unmountDiskErr
    ensures
      var r := DeployRun(VMManager(Some(vm), create), deployment, stemcell);
      var message := Wrap(UnmountContext(vm.disks[k], vm.cid), vm.unmountDiskErr[vm.disks[k]]);
      && r.err == Some(message)
      && Contains(message, vm.unmountDiskErr[vm.disks[k]])
      && r.steps[|r.steps| - 1] == FailedStep(UnmountingStepName(vm.disks[k]), message)
      && r.calls == [Waited(vm.cid, ExistingVMWaitTimeout, WaitDelay)] + StopCalls(vm.cid, |deployment.jobs|)
                    + [DisksListed(vm.cid)] + UnmountCalls(vm.cid, vm.disks[..k + 1])
  {
    FirstFailingDiskAt(vm, vm.disks, k);
    WrapContainsCause(UnmountContext(vm.disks[k], vm.cid), vm.unmountDiskErr[vm.disks[k]]);
  }

  /** A failing delete aborts the deploy with "Deleting VM: <err>" before anything is created. */
  lemma DeleteFailureIsFatal(vm: VM, e: string, create: Result<VM>, deployment: Deployment, stemcell: Stemcell)
    requires vm.stopErr.None? || deployment.jobs == []
    requires forall d :: d in vm.disks ==> d !in vm.unmountDiskErr
    requires vm.deleteErr == Some(e)
    ensures
      var r := DeployRun(VMManager(Some(vm), create), deployment, stemcell);
      && r.err == Some(Wrap("Deleting VM", e))
      && Contains(r.err.value, e)
      && r.steps[|r.steps| - 1] == FailedStep(DeletingStepName(vm.cid), Wrap("Deleting VM", e))
      && r.calls[|r.calls| - 1] == Deleted(vm.cid)
      && (forall call :: call in r.calls ==> !call.Created?)
  {
    TeardownReachesDelete(vm, deployment);
    TeardownNeverCreates(vm, deployment);
    var t := TeardownRun(vm, deployment);
    assert DeployRun(VMManager(Some(vm), create), deployment, stemcell) == t;
    assert t.steps[|t.steps| - 1] == DeleteRun(vm).steps[0];
    assert t.calls[|t.calls| - 1] == DeleteRun(vm).calls[0];
    WrapContainsCause("Deleting VM", e);
  }

  /** The existing VM is deleted exactly once when stopping and unmounting succeed, and
      never otherwise. */
  lemma ExistingVMDeletedOnce(vm: VM, create: Result<VM>, deployment: Deployment, stemcell: Stemcell)
    ensures
      var r := DeployRun(VMManager(Some(vm), create), deployment, stemcell);
      var reached := (vm.stopErr.None? || deployment.jobs == []) && FirstFailingDisk(vm, vm.disks) == |vm.disks|;
      Count(Deleted(vm.cid), r.calls) == if reached then 1 else 0
  {
    var manager := VMManager(Some(vm), create);
    var teardown := TeardownRun(vm, deployment);
    var stops := StopRun(vm, deployment.jobs);
    var unmounts := UnmountRun(vm, vm.disks);
    var after := if teardown.err.None? then CreateRun(manager, deployment, stemcell).calls else [];
    assert DeployRun(manager, deployment, stemcell).calls == teardown.calls + after;
    assert Deleted(vm.cid) !in stops.calls;
    assert Deleted(vm.cid) !in unmounts.calls;
    if stops.err.None? && unmounts.err.None? {
      var before := [Waited(vm.cid, ExistingVMWaitTimeout, WaitDelay)] + stops.calls + [DisksListed(vm.cid)] + unmounts.calls;
      TeardownCallsWhenReached(vm, deployment);
      CountOnce(Deleted(vm.cid), before, after);
    } else {
      TeardownCallsWhenAborted(vm, deployment);
    }
  }

  lemma TeardownCallsWhenReached(vm: VM, deployment: Deployment)
    requires StopRun(vm, deployment.jobs).err.None? && UnmountRun(vm, vm.disks).err.None?
    ensures TeardownRun(vm, deployment).calls ==
      [Waited(vm.cid, ExistingVMWaitTimeout, WaitDelay)] + StopRun(vm, deployment.jobs).calls
        + [DisksListed(vm.cid)] + UnmountRun(vm, vm.disks).calls + [Deleted(vm.cid)]
  {
  }

  lemma TeardownCallsWhenAborted(vm: VM, deployment: Deployment)
    requires StopRun(vm, deployment.jobs).err.Some? || UnmountRun(vm, vm.disks).err.Some?
    ensures TeardownRun(vm, deployment).err.Some?
    ensures forall call :: call in TeardownRun(vm, deployment).calls ==> !call.Deleted?
  {
  }

  /** A deploy that succeeds ends by creating and then promoting the stemcell, exactly once. */
  lemma SuccessPromotesStemcellOnce(manager: VMManager, deployment: Deployment, stemcell: Stemcell)
    requires DeployRun(manager, deployment, stemcell).err.None?
    ensures manager.create.Ok?
    ensures
      var r := DeployRun(manager, deployment, stemcell);
      && Count(Promoted(stemcell.cid), r.calls) == 1
      && r.calls[|r.calls| - 2..] == [Created(stemcell, deployment), Promoted(stemcell.cid)]
  {
    var before := DeployCallsBeforeCreate(manager, deployment, stemcell);
    var x := Promoted(stemcell.cid);
    var prefix := before + [Created(stemcell, deployment)];
    assert x !in prefix;
    CountOnce(x, prefix, []);
    assert prefix + [x] + [] == before + [Created(stemcell, deployment), x];
  }

  /** Create is only ever called with the given stemcell and deployment. */
  lemma CreatesFromGivenStemcell(manager: VMManager, deployment: Deployment, stemcell: Stemcell)
    ensures forall call :: call in DeployRun(manager, deployment, stemcell).calls && call.Created? ==>
      call == Created(stemcell, deployment)
  {
    var _ := DeployCallsBeforeCreate(manager, deployment, stemcell);
  }

  /** A deploy's calls are those of the teardown (if any), then, unless the teardown failed,
      those of creating the new VM; the teardown calls create and promote nothing. */
  lemma DeployCallsBeforeCreate(manager: VMManager, deployment: Deployment, stemcell: Stemcell) returns (before: seq<Call>)
    ensures forall call :: call in before ==> !call.Created? && !call.Promoted?
    ensures
      var r := DeployRun(manager, deployment, stemcell);
      var create := CreateRun(manager, deployment, stemcell);
      && (r.calls == before + create.calls || (r.calls == before && r.err.Some?))
      && (r.err.None? ==> r.calls == before + [Created(stemcell, deployment), Promoted(stemcell.cid)] && manager.create.Ok?)
  {
    if manager.current.Some? {
      before := TeardownRun(manager.current.value, deployment).calls;
      TeardownNeverCreates(manager.current.value, deployment);
    } else {
      before := [];
    }
  }

  /** Tearing down the existing VM neither creates a VM nor promotes a stemcell. */
  lemma TeardownNeverCreates(vm: VM, deployment: Deployment)
    ensures forall call :: call in TeardownRun(vm, deployment).calls ==> !call.Created? && !call.Promoted?
  {
  }

  /** A failing create: the deploy fails, nothing is promoted, and once the create step is
      reached it is Failed with "Creating VM: <err>". */
  lemma CreateFailureIsFatal(manager: VMManager, e: string, deployment: Deployment, stemcell: Stemcell)
    requires manager.create == Err(e)
    ensures
      var r := DeployRun(manager, deployment, stemcell);
      && r.err.Some?
      && (forall call :: call in r.calls ==> !call.Promoted?)
      && (manager.current.None? || TeardownRun(manager.current.value, deployment).err.None? ==>
            && r.err == Some(Wrap("Creating VM", e))
            && r.steps[|r.steps| - 1] == FailedStep(CreatingStepName(stemcell.cid), Wrap("Creating VM", e)))
  {
    var c := CreateRun(manager, deployment, stemcell);
    assert c.err == Some(Wrap("Creating VM", e)) && c.calls == [Created(stemcell, deployment)];
    assert c.steps == [FailedStep(CreatingStepName(stemcell.cid), Wrap("Creating VM", e))];
    if manager.current.Some? {
      var t := TeardownRun(manager.current.value, deployment);
      TeardownNeverCreates(manager.current.value, deployment);
      if t.err.None? {
        assert DeployRun(manager, deployment, stemcell) == Run(t.steps + c.steps, t.calls + c.calls, c.err);
      }
    }
  }

  /** Without a current VM, the only step is creating the VM: no wait, stop, unmount or delete. */
  lemma NoCurrentVMOnlyCreates(create: Result<VM>, deployment: Deployment, stemcell: Stemcell)
    ensures
      var r := DeployRun(VMManager(None, create), deployment, stemcell);
      && |r.steps| == 1
      && r.steps[0].name == "Creating VM from stemcell '" + stemcell.cid + "'"
      && r.calls[0] == Created(stemcell, deployment)
      && (forall call :: call in r.calls ==> call.Created? || call.Promoted?)
  {
  }

  /** WaitUntilReady starts a tunnel if and only if the options are not the zero value, and
      then with exactly those options, before the agent is first probed. */
  lemma TunnelOnlyForNonEmptyOptions(vm: VM, options: TunnelOptions, tunnel: Tunnel)
    ensures
      var r := WaitUntilReadyRun(vm, options, tunnel);
      && (TunnelStarted in r.calls <==> options != EmptyTunnelOptions)
      && (options != EmptyTunnelOptions ==> r.calls[..2] == [TunnelCreated(options), TunnelStarted])
      && (forall call :: call in r.calls && call.TunnelCreated? ==> call.options == options)
  {
  }

  /** A tunnel that fails to start: its error is returned unchanged, and the agent is never probed. */
  lemma TunnelStartFailure(vm: VM, options: TunnelOptions, e: string)
    requires options != EmptyTunnelOptions
    ensures
      var r := WaitUntilReadyRun(vm, options, Tunnel(Some(e)));
      r.err == Some(e) && r.steps == [] && r.calls == [TunnelCreated(options), TunnelStarted]
  {
  }

  /** Once the tunnel (if any) is up, the agent is probed with a 10 minute timeout and a
      500 ms delay; a failure is reported as "Waiting for the vm to be ready: <err>" and returned. */
  lemma PostCreateWait(vm: VM, options: TunnelOptions, tunnel: Tunnel)
    requires options == EmptyTunnelOptions || tunnel.startErr.None?
    ensures
      var r := WaitUntilReadyRun(vm, options, tunnel);
      && r.calls[|r.calls| - 1] == Waited(vm.cid, 600_000, 500)
      && r.steps == [StepFor(WaitingStepName(vm.cid), r.err)]
      && r.err == WrapErr("Waiting for the vm to be ready", vm.waitToBeReadyErr)
  {
  }
}

/** The fake agent client used by the deployer's tests: scripted Ping and GetState responses
    served first in, first out, call counters, Called flags, the last disk CID of each disk
    call, and configured errors. */
module FakeAgentClient {
  import opened Common

  /** The agent state GetState reports; only the job state is modelled. */
  datatype AgentState = AgentState(jobState: string)

  /** An apply spec, kept as the text it is built from; its structure is not part of this model. */
  datatype ApplySpec = ApplySpec(contents: string)

  /** A blob reference returned by CompilePackage. */
  datatype BlobRef = BlobRef(name: string, version: string, blobstoreID: string, sha1: string)

  const EmptyApplySpec := ApplySpec("")
  const EmptyBlobRef := BlobRef("", "", "", "")

  /** One scripted Ping response. */
  datatype PingResponse = PingResponse(response: string, err: Option<string>)

  /** One scripted GetState output. */
  datatype GetStateOutput = GetStateOutput(state: AgentState, err: Option<string>)

  /** Every field of the fake, as one value. */
  datatype ClientState = ClientState(
    pingResponses: seq<PingResponse>, pingCalledCount: nat,
    stopCalled: bool, stopErr: Option<string>,
    applyApplySpec: ApplySpec, applyErr: Option<string>,
    startCalled: bool, startErr: Option<string>,
    mountDiskCID: string, mountDiskErr: Option<string>,
    unmountDiskCID: string, unmountDiskErr: Option<string>,
    listDiskDisks: seq<string>, listDiskErr: Option<string>, listDiskCalled: bool,
    getStateCalledTimes: nat, getStateOutputs: seq<GetStateOutput>,
    migrateDiskCalledTimes: nat, migrateDiskErr: Option<string>)

  /** The state of a new fake: nothing scripted, nothing called, no errors. */
  const InitialState := ClientState(
    [], 0, false, None, EmptyApplySpec, None, false, None, "", None, "", None,
    [], None, false, 0, [], 0, None)

  class FakeAgentClient {
    var pingResponses: seq<PingResponse>
    var pingCalledCount: nat
    var stopCalled: bool
    var stopErr: Option<string>
    var applyApplySpec: ApplySpec
    var applyErr: Option<string>
    var startCalled: bool
    var startErr: Option<string>
    var mountDiskCID: string
    var mountDiskErr: Option<string>
    var unmountDiskCID: string
    var unmountDiskErr: Option<string>
    var listDiskDisks: seq<string>
    var listDiskErr: Option<string>
    var listDiskCalled: bool
    var getStateCalledTimes: nat
    var getStateOutputs: seq<GetStateOutput>
    var migrateDiskCalledTimes: nat
    var migrateDiskErr: Option<string>

    function State(): ClientState
      reads this
    {
      ClientState(
        pingResponses, pingCalledCount, stopCalled, stopErr, applyApplySpec, applyErr,
        startCalled, startErr, mountDiskCID, mountDiskErr, unmountDiskCID, unmountDiskErr,
        listDiskDisks, listDiskErr, listDiskCalled, getStateCalledTimes, getStateOutputs,
        migrateDiskCalledTimes, migrateDiskErr)
    }

    constructor ()
      ensures State() == InitialState
    {
      pingResponses, pingCalledCount := [], 0;
      stopCalled, stopErr := false, None;
      applyApplySpec, applyErr := EmptyApplySpec, None;
      startCalled, startErr := false, None;
      mountDiskCID, mountDiskErr := "", None;
      unmountDiskCID, unmountDiskErr := "", None;
      listDiskDisks, listDiskErr, listDiskCalled := [], None, false;
      getStateCalledTimes, getStateOutputs := 0, [];
      migrateDiskCalledTimes, migrateDiskErr := 0, None;
    }

    /** Counts the call and serves the oldest scripted response, or ("", no error) when none is left. */
    method Ping() returns (response: string, err: Option<string>)
      modifies this
      ensures old(pingResponses) != [] ==>
        && response == old(pingResponses)[0].response && err == old(pingResponses)[0].err
        && State() == old(State()).(pingCalledCount := old(pingCalledCount) + 1,
                                    pingResponses := old(pingResponses)[1..])
      ensures old(pingResponses) == [] ==>
        && response == "" && err == None
        && State() == old(State()).(pingCalledCount := old(pingCalledCount) + 1)
    {
      pingCalledCount := pingCalledCount + 1;
      if |pingResponses| > 0 {
        var next := pingResponses[0];
        pingResponses := pingResponses[1..];
        return next.response, next.err;
      }
      return "", None;
    }

    method Stop() returns (err: Option<string>)
      modifies this
      ensures err == old(stopErr)
      ensures State() == old(State()).(stopCalled := true)
    {
      stopCalled := true;
      return stopErr;
    }

    method Apply(applySpec: ApplySpec) returns (err: Option<string>)
      modifies this
      ensures err == old(applyErr)
      ensures State() == old(State()).(applyApplySpec := applySpec)
    {
      applyApplySpec := applySpec;
      return applyErr;
    }

    method Start() returns (err: Option<string>)
      modifies this
      ensures err == old(startErr)
      ensures State() == old(State()).(startCalled := true)
    {
      startCalled := true;
      return startErr;
    }

    /** Counts the call and serves the oldest scripted output; the fake demands one is scripted. */
    method GetState() returns (state: AgentState, err: Option<string>)
      requires getStateOutputs != []
      modifies this
      ensures state == old(getStateOutputs)[0].state && err == old(getStateOutputs)[0].err
      ensures State() == old(State()).(getStateCalledTimes := old(getStateCalledTimes) + 1,
                                       getStateOutputs := old(getStateOutputs)[1..])
    {
      getStateCalledTimes := getStateCalledTimes + 1;
      var next := getStateOutputs[0];
      getStateOutputs := getStateOutputs[1..];
      return next.state, next.err;
    }

    method ListDisk() returns (disks: seq<string>, err: Option<string>)
      modifies this
      ensures disks == old(listDiskDisks) && err == old(listDiskErr)
      ensures State() == old(State()).(listDiskCalled := true)
    {
      listDiskCalled := true;
      return listDiskDisks, listDiskErr;
    }

    /** Records only the latest CID. */
    method MountDisk(diskCID: string) returns (err: Option<string>)
      modifies this
      ensures err == old(mountDiskErr)
      ensures State() == old(State()).(mountDiskCID := diskCID)
    {
      mountDiskCID := diskCID;
      return mountDiskErr;
    }

    /** Records only the latest CID. */
    method UnmountDisk(diskCID: string) returns (err: Option<string>)
      modifies this
      ensures err == old(unmountDiskErr)
      ensures State() == old(State()).(unmountDiskCID := diskCID)
    {
      unmountDiskCID := diskCID;
      return unmountDiskErr;
    }

    method MigrateDisk() returns (err: Option<string>)
      modifies this
      ensures err == old(migrateDiskErr)
      ensures State() == old(State()).(migrateDiskCalledTimes := old(migrateDiskCalledTimes) + 1)
    {
      migrateDiskCalledTimes := migrateDiskCalledTimes + 1;
      return migrateDiskErr;
    }

    /** Records nothing and always returns the empty blob reference. */
    method CompilePackage(packageSource: BlobRef, compiledPackageDependencies: seq<BlobRef>)
      returns (compiledPackageRef: BlobRef, err: Option<string>)
      ensures compiledPackageRef == EmptyBlobRef && err == None
    {
      return EmptyBlobRef, None;
    }

    /** Scripts one more Ping response, after those already scripted. */
    method SetPingBehavior(response: string, err: Option<string>)
      modifies this
      ensures State() == old(State()).(pingResponses := old(pingResponses) + [PingResponse(response, err)])
    {
      pingResponses := pingResponses + [PingResponse(response, err)];
    }

    method SetStopBehavior(err: Option<string>)
      modifies this
      ensures State() == old(State()).(stopErr := err)
    {
      stopErr := err;
    }

    method SetStartBehavior(err: Option<string>)
      modifies this
      ensures State() == old(State()).(startErr := err)
    {
      startErr := err;
    }

    /** Scripts one more GetState output, after those already scripted. */
    method SetGetStateBehavior(stateResponse: AgentState, err: Option<string>)
      modifies this
      ensures State() == old(State()).(getStateOutputs := old(getStateOutputs) + [GetStateOutput(stateResponse, err)])
    {
      getStateOutputs := getStateOutputs + [GetStateOutput(stateResponse, err)];
    }

    method SetMountDiskBehavior(err: Option<string>)
      modifies this
      ensures State() == old(State()).(mountDiskErr := err)
    {
      mountDiskErr := err;
    }

    method SetUnmountDiskBehavior(err: Option<string>)
      modifies this
      ensures State() == old(State()).(unmountDiskErr := err)
    {
      unmountDiskErr := err;
    }

    method SetMigrateDiskBehavior(err: Option<string>)
      modifies this
      ensures State() == old(State()).(migrateDiskErr := err)
    {
      migrateDiskErr := err;
    }

    method SetListDiskBehavior(disks: seq<string>, err: Option<string>)
      modifies this
      ensures State() == old(State()).(listDiskDisks := disks, listDiskErr := err)
    {
      listDiskDisks := disks;
      listDiskErr := err;
    }
  }

  /** Scripts `responses` on a new fake and pings it once per response and once more: the
      responses come back in the order they were scripted, and then the empty response. */
  method ScriptedPings(responses: seq<PingResponse>) returns (served: seq<PingResponse>, after: PingResponse, count: nat)
    ensures served == responses
    ensures after == PingResponse("", None)
    ensures count == |responses| + 1
  {
    var client := new FakeAgentClient();
    var i := 0;
    while i < |responses|
      invariant 0 <= i <= |responses|
      invariant client.pingResponses == responses[..i] && client.pingCalledCount == 0
    {
      client.SetPingBehavior(responses[i].response, responses[i].err);
      i := i + 1;
    }
    served := [];
    var j := 0;
    while j < |responses|
      invariant 0 <= j <= |responses|
      invariant client.pingResponses == responses[j..]
      invariant served == responses[..j] && client.pingCalledCount == j
    {
      var response, err := client.Ping();
      served := served + [PingResponse(response, err)];
      j := j + 1;
    }
    var response, err := client.Ping();
    after := PingResponse(response, err);
    count := client.pingCalledCount;
  }

  /** Scripts `outputs` on a new fake and asks for the state once per output: the outputs come
      back in the order they were scripted, and every call is counted. */
  method ScriptedStates(outputs: seq<GetStateOutput>) returns (served: seq<GetStateOutput>, count: nat)
    ensures served == outputs
    ensures count == |outputs|
  {
    var client := new FakeAgentClient();
    var i := 0;
    while i < |outputs|
      invariant 0 <= i <= |outputs|
      invariant client.getStateOutputs == outputs[..i] && client.getStateCalledTimes == 0
    {
      client.SetGetStateBehavior(outputs[i].state, outputs[i].err);
      i := i + 1;
    }
    served := [];
    var j := 0;
    while j < |outputs|
      invariant 0 <= j <= |outputs|
      invariant client.getStateOutputs == outputs[j..]
      invariant served == outputs[..j] && client.getStateCalledTimes == j
    {
      var state, err := client.GetState();
      served := served + [GetStateOutput(state, err)];
      j := j + 1;
    }
    count := client.getStateCalledTimes;
  }

  /** Mounting or unmounting twice keeps only the second CID. */
  method LatestDiskCIDs(first: string, second: string) returns (mounted: string, unmounted: string)
    ensures mounted == second && unmounted == second
  {
    var client := new FakeAgentClient();
    var _ := client.MountDisk(first);
    var _ := client.MountDisk(second);
    var _ := client.UnmountDisk(first);
    var _ := client.UnmountDisk(second);
    mounted, unmounted := client.mountDiskCID, client.unmountDiskCID;
  }
}

/** Starting workflows under the device mutex, on the server that holds the executions. */
module Triggers {
  import opened Json
  import opened Fleet

  datatype StartResult = Handle(run: nat) | InvalidHostname | AlreadyStarted

  class WorkflowServer {
    var fleet: State

    constructor (fleet: State)
      requires Initial(fleet)
      ensures this.fleet == fleet && Valid()
    {
      this.fleet := fleet;
    }

    ghost predicate Valid()
      reads this
    {
      Inv(fleet)
    }

    /** The server's part: with the conflict policy "fail" a start is refused while an execution with the
        same identifier is open, and with the reuse policy "allow duplicate" closed ones do not matter. */
    method FindOpen(id: string) returns (found: bool)
      ensures found <==> Running(fleet, id)
    {
      found := false;
      var i := 0;
      while i < |fleet.runs|
        invariant 0 <= i <= |fleet.runs|
        invariant forall j | 0 <= j < i :: !(IsOpen(fleet.runs[j].flow) && fleet.runs[j].id == id)
      {
        if IsOpen(fleet.runs[i].flow) && fleet.runs[i].id == id {
          return true;
        }
        i := i + 1;
      }
    }

    /** A start either adds one execution for the device, or changes nothing: because the host name is
        blank, or because this very device has an open one. */
    method StartDeviceWorkflow(host: string, request: Request) returns (result: StartResult)
      requires Valid()
      modifies this
      ensures Valid() && fleet == Next(old(fleet), Start(host, request))
      ensures result.InvalidHostname? <==> Blank(host)
      ensures result.AlreadyStarted? <==>
              !Blank(host) && exists i | 0 <= i < |old(fleet).runs| ::
                                IsOpen(old(fleet).runs[i].flow) && old(fleet).runs[i].host == host
      ensures match result
              case Handle(run) =>
                && run == |old(fleet).runs| && |fleet.runs| == run + 1 && fleet.runs[..run] == old(fleet).runs
                && fleet.runs[run].host == host && fleet.runs[run].flow == StartFlow(request)
              case _ => fleet == old(fleet)
    {
      hide Inv;
      hide StartFlow;
      StartRefusedIff(fleet, host, request);
      NextKeepsInv(fleet, Start(host, request));
      var id := DeviceWorkflowId(host);
      if id.None? {
        return InvalidHostname;
      }
      var busy := FindOpen(id.value);
      if busy {
        return AlreadyStarted;
      }
      var device := DeviceOf(fleet, host);
      result := Handle(|fleet.runs|);
      fleet := fleet.(runs := fleet.runs + [Execution(id.value, host, device, device, StartFlow(request))]);
      assert |fleet.runs| == |old(fleet).runs| + 1;
    }
  }
}

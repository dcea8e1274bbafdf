/** The outbound marketplace calls a job makes, recorded in call order. */
module Marketplace {
  import opened Protocol

  /** `openai.ReasonClass`: the only class the job processors report. */
  datatype ReasonClass = ServiceErrorClass

  /** The reason text every upstream failure is reported with. */
  const ServiceErrorReason: string := "Service Error"

  datatype RpcCall =
    | FailJob(providerPeerId: string, providerJobId: string, reason: string, reasonClass: ReasonClass)
    | CompleteJob(providerPeerId: string, providerJobId: string, balanceDelta: string, publicPayload: PublicPayload)

  /** The RPC handle: the marketplace's side is out of view, so the model
      keeps the calls made to it. */
  class Rpc {
    var calls: seq<RpcCall>

    constructor ()
      ensures calls == []
    {
      calls := [];
    }

    /** `rpc.failJob({...})`. */
    method FailJob(providerPeerId: string, providerJobId: string, reason: string, reasonClass: ReasonClass)
      modifies this
      ensures calls == old(calls) + [RpcCall.FailJob(providerPeerId, providerJobId, reason, reasonClass)]
    {
      calls := calls + [RpcCall.FailJob(providerPeerId, providerJobId, reason, reasonClass)];
    }

    /** `rpc.providerCompleteJob({...})`; the `completed_at_sync` it answers
        with is the marketplace's and is supplied by the caller. */
    method ProviderCompleteJob(providerPeerId: string, providerJobId: string, balanceDelta: string,
                               publicPayload: PublicPayload)
      modifies this
      ensures calls == old(calls) + [RpcCall.CompleteJob(providerPeerId, providerJobId, balanceDelta, publicPayload)]
    {
      calls := calls + [RpcCall.CompleteJob(providerPeerId, providerJobId, balanceDelta, publicPayload)];
    }
  }
}

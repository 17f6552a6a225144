/** The status model of `host.rs`: one record per minion and the closed set
    of statuses a record can carry. */
module Hosts {
  import opened Wrappers
  import Json

  datatype HostStatus =
    | Uninitialized
    | Success
    | NoReturnCode
    | ReturnCodeNotNumber
    | RetValueIsNone
    | RetCodeWasNotNull
    | RetValueNotObject
    | RetValueObjectIsEmpty
    | DeletedMinion
    | DidNotRespond

  datatype Host = Host(hostname: string, data: Option<Json.Value>, status: HostStatus)

  /** Every status, each once. */
  const AllStatuses: seq<HostStatus> := [
    Uninitialized, Success, NoReturnCode, ReturnCodeNotNumber, RetValueIsNone,
    RetCodeWasNotNull, RetValueNotObject, RetValueObjectIsEmpty, DeletedMinion, DidNotRespond
  ]

  /** `HostStatus::default()`. */
  function DefaultStatus(): (s: HostStatus)
    ensures !IsSuccess(s)
  {
    Uninitialized
  }

  /** `HostStatus::is_success`: equality with `Success`. */
  predicate IsSuccess(s: HostStatus)
  {
    s == Success
  }

  /** `Host::default()`: empty hostname, no data, default status. */
  function DefaultHost(): (h: Host)
    ensures h.hostname == [] && h.data.None? && h.status == DefaultStatus()
    ensures !HostIsSuccess(h)
  {
    Host([], None, DefaultStatus())
  }

  /** `Host::is_success`: delegates to the status. */
  predicate HostIsSuccess(h: Host)
  {
    IsSuccess(h.status)
  }

  /** The enumeration is closed: every status is one of the ten listed, and
      the ten are pairwise distinct. */
  lemma {:induction false} StatusesAreTen(s: HostStatus)
    ensures s in AllStatuses
    ensures |AllStatuses| == 10
    ensures forall i, j :: 0 <= i < j < |AllStatuses| ==> AllStatuses[i] != AllStatuses[j]
  {
  }

  /** Exactly one status is a success. */
  lemma {:induction false} SuccessIsTheOnlySuccess(s: HostStatus)
    ensures IsSuccess(s) <==> s == Success
    ensures IsSuccess(s) ==> forall t :: IsSuccess(t) ==> t == s
  {
  }

  /** A host's success depends on its status alone: two hosts with the same
      status agree, whatever their names and data. */
  lemma {:induction false} HostSuccessIsStatusSuccess(a: Host, b: Host)
    ensures HostIsSuccess(a) <==> a.status == Success
    ensures a.status == b.status ==> (HostIsSuccess(a) <==> HostIsSuccess(b))
  {
  }
}

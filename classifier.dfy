/** `parse_minions_from_json`: every member of the decoded top-level object
    is classified, on its own, into one `Host` with a definitive status. */
module Classifier {
  import opened Wrappers
  import opened Json
  import opened Hosts
  import Retcodes

  /** The per-member decision of `parse_minions_from_json`: an ordered chain
      of checks, the first that applies decides the status. */
  function Classify(hostid: string, values: Value): (host: Host)
    ensures host.hostname == hostid
    ensures host.status != Uninitialized
    ensures host.data.Some? <==> IsSuccess(host.status)
    ensures host.data.Some? ==> host.data.value == values
  {
    var host := DefaultHost().(hostname := hostid);
    if Get(values, "ret").None? then
      // the single-host shape: the value itself is the payload
      match values
      case Obj(r) =>
        if |r| == 0 then host.(status := RetValueObjectIsEmpty)
        else host.(data := Some(values), status := HostStatus.Success)
      case _ => host.(status := RetValueNotObject)
    else
      // the batch shape: `retcode` is checked before `ret` is inspected
      match Get(values, "retcode")
      case None => host.(status := NoReturnCode)
      case Some(o) =>
        match AsU64(o)
        case None => host.(status := ReturnCodeNotNumber)
        case Some(v) =>
          if Retcodes.IsFailure(Retcodes.FromU64(v)) then host.(status := RetCodeWasNotNull)
          else
            match Get(values, "ret")
            case None => host.(status := RetValueIsNone)
            case Some(ret) =>
              match ret
              case Obj(r) =>
                if |r| == 0 then host.(status := RetValueObjectIsEmpty)
                else host.(data := Some(values), status := HostStatus.Success)
              case _ => host.(status := RetValueNotObject)
  }

  /** The map `parse_minions_from_json` builds from the members of the
      top-level object. */
  function ClassifyAll(fields: map<string, Value>): (minions: map<string, Host>)
  {
    map hostid | hostid in fields :: Classify(hostid, fields[hostid])
  }

  /** A payload the classifier accepts as a success, stated on the value's
      shape alone: either an unwrapped non-empty object without `ret`, or a
      wrapper whose `retcode` is the number 0 and whose `ret` is a non-empty
      object. */
  predicate IsGoodPayload(v: Value)
  {
    && v.Obj?
    && |v.fields| > 0
    && ("ret" in v.fields ==>
          && "retcode" in v.fields
          && v.fields["retcode"] == UInt(0)
          && v.fields["ret"].Obj?
          && |v.fields["ret"].fields| > 0)
  }

  /** Success is exactly the good-payload shape, and the data kept is the
      whole outer value. */
  lemma {:induction false} ClassifySuccessIff(hostid: string, v: Value)
    ensures Classify(hostid, v).status == HostStatus.Success <==> IsGoodPayload(v)
    ensures Classify(hostid, v).status == HostStatus.Success ==> Classify(hostid, v).data == Some(v)
  {
    if Get(v, "ret").Some? && Get(v, "retcode").Some? && AsU64(v.fields["retcode"]).Some? {
      Retcodes.IsFailureIffNonZero(AsU64(v.fields["retcode"]).value);
    }
  }

  /** Without a `ret` member the result depends on the value's shape only. */
  lemma {:induction false} ClassifyWithoutRet(hostid: string, v: Value)
    requires Get(v, "ret").None?
    ensures !v.Obj? ==> Classify(hostid, v).status == RetValueNotObject
    ensures IsEmptyObject(v) ==> Classify(hostid, v).status == RetValueObjectIsEmpty
    ensures v.Obj? && |v.fields| > 0 ==>
              Classify(hostid, v) == Host(hostid, Some(v), HostStatus.Success)
  {
  }

  /** With a `ret` member, the return code is checked first, in this order:
      missing, not a `u64`, non-zero. */
  lemma {:induction false} ClassifyRetcodeFirst(hostid: string, v: Value)
    requires Get(v, "ret").Some?
    ensures "retcode" !in v.fields ==> Classify(hostid, v).status == NoReturnCode
    ensures "retcode" in v.fields && AsU64(v.fields["retcode"]).None? ==>
              Classify(hostid, v).status == ReturnCodeNotNumber
    ensures "retcode" in v.fields && v.fields["retcode"].UInt? &&
            0 < v.fields["retcode"].n < U64_LIMIT ==>
              Classify(hostid, v).status == RetCodeWasNotNull
  {
    if "retcode" in v.fields && AsU64(v.fields["retcode"]).Some? {
      Retcodes.IsFailureIffNonZero(AsU64(v.fields["retcode"]).value);
    }
  }

  /** With a `ret` member and a zero `retcode`, the shape of `ret` decides. */
  lemma {:induction false} ClassifyRetShape(hostid: string, v: Value)
    requires v.Obj? && "ret" in v.fields && "retcode" in v.fields && v.fields["retcode"] == UInt(0)
    ensures !v.fields["ret"].Obj? ==> Classify(hostid, v).status == RetValueNotObject
    ensures IsEmptyObject(v.fields["ret"]) ==> Classify(hostid, v).status == RetValueObjectIsEmpty
    ensures v.fields["ret"].Obj? && |v.fields["ret"].fields| > 0 ==>
              Classify(hostid, v) == Host(hostid, Some(v), HostStatus.Success)
  {
    Retcodes.IsFailureIffNonZero(0);
  }

  /** `RetValueIsNone` is never produced: the presence of `ret` was settled
      before the return code was read. */
  lemma {:induction false} RetValueIsNoneUnreachable(hostid: string, v: Value)
    ensures Classify(hostid, v).status != RetValueIsNone
  {
  }

  /** Classifying depends on nothing but the host id and its own value. */
  lemma {:induction false} ClassifyAllIsLocal(fields: map<string, Value>, other: map<string, Value>, hostid: string)
    requires hostid in fields && hostid in other && fields[hostid] == other[hostid]
    ensures ClassifyAll(fields)[hostid] == ClassifyAll(other)[hostid]
  {
  }

  /** Three payloads and their statuses: a bare non-empty object is a
      success carrying itself, a bare empty object is empty, and a non-zero
      `retcode` is reported before an empty `ret` is looked at. */
  lemma {:induction false} ClassifyExamples()
    ensures Classify("web1", Obj(map["a" := UInt(1)])) == Host("web1", Some(Obj(map["a" := UInt(1)])), HostStatus.Success)
    ensures Classify("web2", Obj(map[])).status == RetValueObjectIsEmpty
    ensures Classify("web3", Obj(map["retcode" := UInt(1), "ret" := Obj(map[])])).status == RetCodeWasNotNull
  {
    ClassifyWithoutRet("web1", Obj(map["a" := UInt(1)]));
    ClassifyWithoutRet("web2", Obj(map[]));
    ClassifyRetcodeFirst("web3", Obj(map["retcode" := UInt(1), "ret" := Obj(map[])]));
  }

  /** Every hostname in the map names a record for that hostname, with a
      definitive status, carrying data exactly when it is a success. */
  ghost predicate WellFormedReport(minions: map<string, Host>)
  {
    forall hostid | hostid in minions ::
      && minions[hostid].hostname == hostid
      && minions[hostid].status != Uninitialized
      && (minions[hostid].data.Some? <==> IsSuccess(minions[hostid].status))
  }

  /** The classified map of any object is well formed, keyed like the object. */
  lemma {:induction false} ClassifyAllWellFormed(fields: map<string, Value>)
    ensures ClassifyAll(fields).Keys == fields.Keys
    ensures WellFormedReport(ClassifyAll(fields))
  {
  }

  /** `parse_minions_from_json` over a top-level object (the source unwraps
      `as_object()`, so a non-object panics: that is the precondition). Each
      member is inserted once, under its own key; the iteration order does
      not matter because the keys are distinct. */
  method ParseMinionsFromJson(jsonValue: Value) returns (minions: map<string, Host>)
    requires jsonValue.Obj?
    ensures minions.Keys == jsonValue.fields.Keys
    ensures forall hostid | hostid in minions ::
              minions[hostid] == Classify(hostid, jsonValue.fields[hostid])
    ensures WellFormedReport(minions)
  {
    var fields := jsonValue.fields;
    minions := map[];
    var todo := fields.Keys;
    while todo != {}
      invariant todo <= fields.Keys
      invariant minions.Keys == fields.Keys - todo
      invariant forall hostid | hostid in minions :: minions[hostid] == Classify(hostid, fields[hostid])
      decreases todo
    {
      var hostid :| hostid in todo;
      var host := Classify(hostid, fields[hostid]);
      minions := minions[hostid := host];
      todo := todo - {hostid};
    }
  }
}

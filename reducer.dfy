/** `parse_minions_from_minions_data`: pre-filter the report text, decode
    what is left as JSON, classify its members, and append the classified
    map onto the pre-filter's map. */
module Reducer {
  import opened Wrappers
  import opened Json
  import opened Hosts
  import opened Text
  import opened Prefilter
  import opened Classifier
  import opened Errors

  /** `serde_json::from_str`, a foreign decoder: `None` when the text is not
      JSON. */
  type Decoder = string -> Option<Value>

  /** The decoded report, when there is one, is an object: the source calls
      `as_object().unwrap()` on it and panics otherwise. */
  predicate DecodesToObject(decode: Decoder, text: string)
  {
    decode(CleanedText(text)).Some? ==> decode(CleanedText(text)).value.Obj?
  }

  /** The reduced report of one text: pre-filter hosts first, then the
      classified JSON members appended over them (`BTreeMap::append`, so the
      JSON entry wins a duplicate key). */
  function ParseMinions(text: string, decode: Decoder): Result<map<string, Host>, Error>
    requires DecodesToObject(decode, text)
  {
    match decode(CleanedText(text))
    case None => Err(JsonDecodeFailed)
    case Some(value) => Ok(PrefilterHosts(text) + ClassifyAll(value.fields))
  }

  /** Decoding is the only failure; after it the key set is the union of the
      captured names and the JSON keys, a JSON key holds its classified
      entry, and a name only the pre-filter saw holds the pre-filter entry. */
  lemma {:induction false} ParseMinionsMerge(text: string, decode: Decoder)
    requires DecodesToObject(decode, text)
    ensures ParseMinions(text, decode).Err? <==> decode(CleanedText(text)).None?
    ensures ParseMinions(text, decode).Ok? ==>
              var fields := decode(CleanedText(text)).value.fields;
              var minions := ParseMinions(text, decode).value;
              && minions.Keys == PrefilterHosts(text).Keys + fields.Keys
              && (forall hostid | hostid in fields :: minions[hostid] == Classify(hostid, fields[hostid]))
              && (forall hostid | hostid in PrefilterHosts(text) && hostid !in fields ::
                    minions[hostid] == PrefilterHosts(text)[hostid])
  {
    match decode(CleanedText(text)) {
      case None =>
      case Some(value) =>
        var merged := PrefilterHosts(text) + ClassifyAll(value.fields);
        assert ParseMinions(text, decode) == Ok(merged);
        assert merged.Keys == PrefilterHosts(text).Keys + value.fields.Keys;
    }
  }

  /** The pre-filter's records are themselves well formed: own name, no
      data, a failure status. */
  lemma {:induction false} PrefilterHostsWellFormed(text: string)
    ensures WellFormedReport(PrefilterHosts(text))
    ensures forall name | name in PrefilterHosts(text) ::
              PrefilterHosts(text)[name].status in {DidNotRespond, DeletedMinion}
  {
  }

  /** Appending one well-formed map onto another keeps it well formed. */
  lemma {:induction false} AppendWellFormed(minions: map<string, Host>, parsed: map<string, Host>)
    requires WellFormedReport(minions) && WellFormedReport(parsed)
    ensures WellFormedReport(minions + parsed)
  {
    var merged := minions + parsed;
    forall hostid | hostid in merged
      ensures merged[hostid].hostname == hostid
      ensures merged[hostid].status != Uninitialized
      ensures merged[hostid].data.Some? <==> IsSuccess(merged[hostid].status)
    {
      if hostid in parsed {
        assert merged[hostid] == parsed[hostid];
      } else {
        assert merged[hostid] == minions[hostid];
      }
    }
  }

  /** Every name in the report, from a text line or a JSON key, appears once
      with its own record and a definitive status. */
  lemma {:induction false} ParseMinionsComplete(text: string, decode: Decoder, name: string)
    requires DecodesToObject(decode, text)
    requires ParseMinions(text, decode).Ok?
    ensures WellFormedReport(ParseMinions(text, decode).value)
    ensures name in ParseMinions(text, decode).value <==>
              || Captured(DidNotRespondShape, Lines(text), name)
              || Captured(DeletedMinionShape, Lines(text), name)
              || name in decode(CleanedText(text)).value.fields
  {
    PrefilterHostsWellFormed(text);
    PrefilterHostsSpec(text, name);
    var fields := decode(CleanedText(text)).value.fields;
    ClassifyAllWellFormed(fields);
    AppendWellFormed(PrefilterHosts(text), ClassifyAll(fields));
  }

  /** The whole stage: pre-filter, decode (failure is fatal), classify,
      append. */
  method ParseMinionsFromMinionsData(minionsData: string, decode: Decoder)
    returns (r: Result<map<string, Host>, Error>)
    requires DecodesToObject(decode, minionsData)
    ensures r == ParseMinions(minionsData, decode)
    ensures r.Ok? ==> WellFormedReport(r.value)
  {
    var minions, data := RunPrefilter(minionsData);
    match decode(data) {
      case None =>
        return Err(JsonDecodeFailed);
      case Some(value) =>
        var parsed := ParseMinionsFromJson(value);
        assert parsed == ClassifyAll(value.fields);
        PrefilterHostsWellFormed(minionsData);
        AppendWellFormed(minions, parsed);
        minions := minions + parsed;
        r := Ok(minions);
    }
  }
}

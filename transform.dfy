/** The response envelope: a handler's result is wrapped as
    `{ success: true, data, meta: { timestamp, path } }` unless it already
    looks like an envelope. */
module Transform {
  import opened Json

  /** `data && typeof data === 'object' && 'success' in data`. */
  predicate IsEnvelope(data: Json) {
    Truthy(data) && (data.Obj? || data.Arr?) && Has(data, "success")
  }

  function Envelope(data: Json, path: string, timestamp: string): Json {
    Obj(map["success" := Bool(true), "data" := data,
            "meta" := Obj(map["timestamp" := Str(timestamp), "path" := Str(path)])])
  }

  /** The `map` callback of the interceptor. */
  function Wrap(data: Json, path: string, timestamp: string): (r: Json)
    ensures IsEnvelope(r)
    ensures IsEnvelope(data) ==> r == data
    ensures !IsEnvelope(data) ==>
      Get(r, "success") == Bool(true) && Get(r, "data") == data
      && Get(Get(r, "meta"), "path") == Str(path)
  {
    if IsEnvelope(data) then data else Envelope(data, path, timestamp)
  }

  /** Wrapping twice is wrapping once, whatever request the second pass
      belongs to. */
  lemma WrapIdempotent(data: Json, path: string, timestamp: string, path2: string, timestamp2: string)
    ensures Wrap(Wrap(data, path, timestamp), path2, timestamp2) == Wrap(data, path, timestamp)
  {
  }

  /** Null, undefined and every primitive are wrapped, their value kept as
      `data`; so is an object without a `success` key. */
  lemma NonEnvelopesAreWrapped(data: Json, path: string, timestamp: string)
    requires data.Undefined? || data.Null? || data.Bool? || data.Num? || data.Str? || !Has(data, "success")
    ensures Wrap(data, path, timestamp) == Envelope(data, path, timestamp)
  {
  }

  /** A handler result that happens to carry a `success` key, whatever its
      value, is sent as it is, without `data` or `meta`. */
  lemma AnySuccessKeyPassesThrough(fields: map<string, Json>, v: Json, path: string, timestamp: string)
    requires "success" in fields && fields["success"] == v
    ensures Wrap(Obj(fields), path, timestamp) == Obj(fields)
    ensures v == Bool(false) ==> Get(Wrap(Obj(fields), path, timestamp), "success") == Bool(false)
  {
  }
}

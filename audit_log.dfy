/** The audit-log interceptor: after a mutating request by a signed-in user
    it records who did what to which entity, taking the entity's name from
    the URL and its id from the route or the response. The response itself
    passes through untouched, and a failed write is swallowed. */
module AuditLog {
  import opened Common
  import opened Json
  import opened Entities

  const AUDITED_METHODS: seq<string> := ["POST", "PATCH", "DELETE"]
  const UNKNOWN_ENTITY := "unknown"

  /** The parts of the request the interceptor reads; `user` is the id of
      the authenticated user, if any. */
  datatype Request = Request(
    httpMethod: string,
    url: string,
    user: Option<Id>,
    params: Json,
    ip: string,
    headers: map<string, Json>)

  // ---- the URL ----

  /** `s.split('/')`: the pieces between slashes, at least one. */
  function Split(s: string): (r: seq<string>)
    ensures |r| >= 1
    ensures forall k :: 0 <= k < |r| ==> '/' !in r[k]
    decreases |s|
  {
    if s == [] then [""]
    else
      var rest := Split(s[1..]);
      if s[0] == '/' then [""] + rest else [[s[0]] + rest[0]] + rest[1..]
  }

  /** `parts.join('/')`. */
  function Join(parts: seq<string>): string
    requires |parts| >= 1
    decreases |parts|
  {
    if |parts| == 1 then parts[0] else parts[0] + "/" + Join(parts[1..])
  }

  /** Splitting loses nothing: joining the pieces gives the string back. */
  lemma {:induction false} JoinSplit(s: string)
    ensures Join(Split(s)) == s
    decreases |s|
  {
    if s != [] {
      JoinSplit(s[1..]);
      var rest := Split(s[1..]);
      if s[0] == '/' {
        assert Join([""] + rest) == "" + "/" + Join(rest);
      } else {
        var r := [[s[0]] + rest[0]] + rest[1..];
        if |rest| == 1 {
          assert r == [[s[0]] + rest[0]];
        } else {
          assert r[1..] == rest[1..];
          assert Join(rest) == rest[0] + "/" + Join(rest[1..]);
        }
      }
    }
  }

  /** And joining slash-free pieces, then splitting, gives the pieces back. */
  lemma {:induction false} SplitJoin(parts: seq<string>)
    requires |parts| >= 1
    requires forall k :: 0 <= k < |parts| ==> '/' !in parts[k]
    ensures Split(Join(parts)) == parts
    decreases |parts|
  {
    if |parts| == 1 {
      SplitNoSlash(parts[0]);
    } else {
      SplitJoin(parts[1..]);
      SplitAfter(parts[0], Join(parts[1..]));
      assert [parts[0]] + parts[1..] == parts;
    }
  }

  lemma {:induction false} SplitNoSlash(p: string)
    requires '/' !in p
    ensures Split(p) == [p]
    decreases |p|
  {
    if p != [] {
      SplitNoSlash(p[1..]);
      assert [p[0]] + p[1..] == p;
    }
  }

  /** A slash-free prefix and its slash make the first piece. */
  lemma {:induction false} SplitAfter(p: string, tail: string)
    requires '/' !in p
    ensures Split(p + "/" + tail) == [p] + Split(tail)
    decreases |p|
  {
    var s := p + "/" + tail;
    if p == [] {
      assert s == "/" + tail && s[0] == '/';
      assert s[1..] == tail;
    } else {
      SplitAfter(p[1..], tail);
      assert s[0] == p[0] && s[0] != '/';
      assert s[1..] == p[1..] + "/" + tail;
      var rest := Split(s[1..]);
      assert rest[0] == p[1..] && rest[1..] == Split(tail);
      assert [p[0]] + p[1..] == p;
    }
  }

  /** `.filter((p) => p)`: the non-empty pieces. */
  function NonEmptyParts(parts: seq<string>): (r: seq<string>)
    ensures forall k :: 0 <= k < |r| ==> r[k] != ""
    ensures |r| <= |parts|
    decreases |parts|
  {
    if parts == [] then []
    else if parts[0] == "" then NonEmptyParts(parts[1..])
    else [parts[0]] + NonEmptyParts(parts[1..])
  }

  lemma {:induction false} NonEmptyPartsAppend(a: seq<string>, b: seq<string>)
    ensures NonEmptyParts(a + b) == NonEmptyParts(a) + NonEmptyParts(b)
    decreases |a|
  {
    if a != [] {
      assert (a + b)[0] == a[0];
      assert (a + b)[1..] == a[1..] + b;
      NonEmptyPartsAppend(a[1..], b);
    } else {
      assert a + b == b;
    }
  }

  /** `pathParts[2] || 'unknown'`. */
  function Entity(url: string): (e: string)
    ensures e != ""
  {
    var parts := NonEmptyParts(Split(url));
    if |parts| > 2 then parts[2] else UNKNOWN_ENTITY
  }

  /** On the API's own paths, `/<prefix>/<version>/<entity>/...`, the entity
      is the third segment. */
  lemma {:induction false} EntityOfApiPath(prefix: string, version: string, entity: string, rest: seq<string>)
    requires prefix != "" && version != "" && entity != ""
    requires '/' !in prefix && '/' !in version && '/' !in entity
    requires forall k :: 0 <= k < |rest| ==> '/' !in rest[k]
    ensures Entity(Join(["", prefix, version, entity] + rest)) == entity
  {
    var parts := ["", prefix, version, entity] + rest;
    assert forall k :: 0 <= k < |parts| ==> '/' !in parts[k] by {
      forall k | 0 <= k < |parts| ensures '/' !in parts[k] {
        if k >= 4 { assert parts[k] == rest[k - 4]; }
      }
    }
    SplitJoin(parts);
    NonEmptyPartsAppend(["", prefix, version, entity], rest);
    assert NonEmptyParts(["", prefix, version, entity]) == [prefix, version, entity] by {
      assert ["", prefix, version, entity][1..] == [prefix, version, entity];
      assert [prefix, version, entity][1..] == [version, entity];
      assert [version, entity][1..] == [entity];
      assert [entity][1..] == [];
      assert NonEmptyParts([entity]) == [entity];
      assert NonEmptyParts([version, entity]) == [version, entity];
      assert NonEmptyParts([prefix, version, entity]) == [prefix, version, entity];
    }
  }

  /** A path with fewer than three non-empty segments is logged as
      'unknown'. */
  lemma ShortPathIsUnknown(url: string)
    requires |NonEmptyParts(Split(url))| <= 2
    ensures Entity(url) == UNKNOWN_ENTITY
  {
  }

  // ---- the entity id ----

  /** The first truthy value, or undefined when there is none. */
  function FirstTruthy(candidates: seq<Json>): (r: Json)
    ensures Truthy(r) <==> exists k :: 0 <= k < |candidates| && Truthy(candidates[k])
    ensures Truthy(r) ==> exists k :: (0 <= k < |candidates| && r == candidates[k]
      && forall j :: 0 <= j < k ==> !Truthy(candidates[j]))
    decreases |candidates|
  {
    if candidates == [] then Undefined
    else if Truthy(candidates[0]) then candidates[0]
    else
      var r := FirstTruthy(candidates[1..]);
      assert forall k :: 1 <= k < |candidates| ==> candidates[k] == candidates[1..][k - 1];
      r
  }

  /** Where the id is looked for, in order: the route's `id`, the
      response's `id`, the `id` of the response's `data`. */
  function IdCandidates(params: Json, data: Json): seq<Json> {
    [Get(params, "id"), Get(data, "id"), Get(Get(data, "data"), "id")]
  }

  /** The entity id as the interceptor computes it, step by step: the
      first truthy candidate, and a falsy value when there is none. */
  method DeriveEntityId(params: Json, data: Json) returns (entityId: Json)
    ensures Truthy(entityId) <==> Truthy(FirstTruthy(IdCandidates(params, data)))
    ensures Truthy(entityId) ==> entityId == FirstTruthy(IdCandidates(params, data))
  {
    entityId := Get(params, "id");
    if !Truthy(entityId) && Truthy(data) && Truthy(Get(data, "id")) {
      entityId := Get(data, "id");
    }
    if !Truthy(entityId) && Truthy(data) && Truthy(Get(data, "data")) && Truthy(Get(Get(data, "data"), "id")) {
      entityId := Get(Get(data, "data"), "id");
    }
    FirstTruthyOfThree(Get(params, "id"), Get(data, "id"), Get(Get(data, "data"), "id"));
  }

  /** Over three candidates: the first, else the second, else the third
      when truthy, else undefined. */
  lemma {:induction false} FirstTruthyOfThree(a: Json, b: Json, c: Json)
    ensures FirstTruthy([a, b, c]) ==
      if Truthy(a) then a else if Truthy(b) then b else if Truthy(c) then c else Undefined
  {
    assert [a, b, c][1..] == [b, c];
    assert [b, c][1..] == [c];
    assert [c][1..] == [];
    assert FirstTruthy([c]) == (if Truthy(c) then c else Undefined);
    assert FirstTruthy([b, c]) == (if Truthy(b) then b else FirstTruthy([c]));
  }

  // ---- the entry ----

  /** The entry the interceptor writes for a request that produced `data`,
      or none: the method must be audited, there must be a user and an id,
      and `data.data` must be readable unless the method is DELETE (reading
      it off null or undefined throws, and the error is swallowed). */
  function AuditFor(req: Request, data: Json): Option<AuditEntry> {
    if req.httpMethod !in AUDITED_METHODS || req.user.None? then None
    else
      var entityId := FirstTruthy(IdCandidates(req.params, data));
      if !Truthy(entityId) then None
      else if req.httpMethod != "DELETE" && (data.Undefined? || data.Null?) then None
      else
        var newValue := if req.httpMethod != "DELETE" then Or(Get(data, "data"), data) else Undefined;
        var userAgent := if "user-agent" in req.headers then req.headers["user-agent"] else Undefined;
        Some(AuditEntry(req.user.value, req.httpMethod, Entity(req.url), entityId, newValue, req.ip, userAgent))
  }

  class AuditLogInterceptor {
    const db: Database

    constructor (db: Database)
      ensures this.db == db
    {
      this.db := db;
    }

    /** The interceptor around a handler that produced `data`; `written`
        says whether the store accepted the entry. The handler's value is
        returned as it is in every case. */
    method Intercept(req: Request, data: Json, written: bool) returns (out: Json)
      modifies db`auditLogs
      ensures out == data
      ensures db.auditLogs == old(db.auditLogs) + (if written && AuditFor(req, data).Some? then [AuditFor(req, data).value] else [])
    {
      out := data;
      if req.httpMethod !in AUDITED_METHODS {
        return;
      }
      if req.user.None? {
        return;
      }
      var entity := Entity(req.url);
      var entityId := DeriveEntityId(req.params, data);
      if !Truthy(entityId) {
        return;
      }
      if req.httpMethod != "DELETE" && (data.Undefined? || data.Null?) {
        return;
      }
      var newValue := if req.httpMethod != "DELETE" then Or(Get(data, "data"), data) else Undefined;
      var userAgent := if "user-agent" in req.headers then req.headers["user-agent"] else Undefined;
      if written {
        db.auditLogs := db.auditLogs + [AuditEntry(req.user.value, req.httpMethod, entity, entityId, newValue, req.ip, userAgent)];
      }
    }
  }

  // ---- properties ----

  /** Only POST, PATCH and DELETE by a signed-in user can be audited, and
      an entry records that user, that method and a truthy id. */
  lemma WhoAndWhat(req: Request, data: Json)
    ensures AuditFor(req, data).Some? ==>
      req.httpMethod in {"POST", "PATCH", "DELETE"} && req.user.Some?
      && AuditFor(req, data).value.userId == req.user.value
      && AuditFor(req, data).value.action == req.httpMethod
      && Truthy(AuditFor(req, data).value.entityId)
      && AuditFor(req, data).value.entity == Entity(req.url)
  {
  }

  /** The route's id wins over the response's, which wins over the wrapped
      response's; an audited request by a signed-in user whose `data.data`
      is readable gets an entry exactly when one of them is truthy, and the
      entry records the winner. */
  lemma EntityIdPrecedence(req: Request, data: Json)
    ensures var id := FirstTruthy(IdCandidates(req.params, data));
      (Truthy(Get(req.params, "id")) ==> id == Get(req.params, "id"))
      && (!Truthy(Get(req.params, "id")) && Truthy(Get(data, "id")) ==> id == Get(data, "id"))
      && (!Truthy(Get(req.params, "id")) && !Truthy(Get(data, "id")) ==>
            id == (if Truthy(Get(Get(data, "data"), "id")) then Get(Get(data, "data"), "id") else Undefined))
    ensures req.httpMethod in AUDITED_METHODS && req.user.Some? && (req.httpMethod == "DELETE" || !(data.Undefined? || data.Null?)) ==>
      (AuditFor(req, data).Some? <==> Truthy(FirstTruthy(IdCandidates(req.params, data))))
    ensures AuditFor(req, data).Some? ==> AuditFor(req, data).value.entityId == FirstTruthy(IdCandidates(req.params, data))
  {
    FirstTruthyOfThree(Get(req.params, "id"), Get(data, "id"), Get(Get(data, "data"), "id"));
  }

  /** A DELETE records no new value; any other audited method records the
      response's `data` when it is truthy, else the response itself. */
  lemma NewValueRule(req: Request, data: Json)
    requires AuditFor(req, data).Some?
    ensures req.httpMethod == "DELETE" ==> AuditFor(req, data).value.newValue == Undefined
    ensures req.httpMethod != "DELETE" ==>
      AuditFor(req, data).value.newValue == (if Truthy(Get(data, "data")) then Get(data, "data") else data)
  {
  }

  /** A POST or PATCH whose handler returned nothing is not audited even
      with an id in the route: reading `data.data` fails and the failure is
      swallowed. */
  lemma EmptyResponseNotAudited(req: Request, data: Json)
    requires req.httpMethod == "POST" || req.httpMethod == "PATCH"
    requires data.Undefined? || data.Null?
    ensures AuditFor(req, data).None?
  {
  }
}

/** The preferences controller: three request handlers over one persisted
    preferences record. The JSON file is abstracted as a single optional
    stored record (None when the file does not exist); whether a file read or
    write fails is supplied by the caller, as the environment's answer. */
module PreferencesController {

  datatype Option<T> = None | Some(value: T)

  /** A JSON value as it arrives in a request body and as it is persisted. */
  datatype Json =
    | Bool(b: bool)
    | Num(n: real)
    | Str(s: string)
    | Null
    | List(items: seq<Json>)
    | Object(fields: map<string, Json>)

  /** A preferences record: a JSON object, extra fields included. */
  type Record = map<string, Json>

  const VelocityFlag: string := "includeVelocity"
  const BlockersFlag: string := "includeBlockers"
  const HighlightsFlag: string := "includeHighlights"

  /** `typeof body[key] === 'boolean'`; a missing field is `undefined`. */
  predicate IsBoolean(body: Record, key: string): (b: bool)
    ensures b <==> key in body && (body[key] == Bool(true) || body[key] == Bool(false))
  {
    key in body && body[key].Bool?
  }

  /** The names of the three flags an update must carry. */
  const FlagNames: set<string> := {VelocityFlag, BlockersFlag, HighlightsFlag}

  /** The validation rule of an update: the three flags are booleans. Other
      fields are not looked at. */
  predicate HasBooleanFlags(body: Record): (b: bool)
    ensures b <==> forall k :: k in FlagNames ==> IsBoolean(body, k)
  {
    IsBoolean(body, VelocityFlag) && IsBoolean(body, BlockersFlag) && IsBoolean(body, HighlightsFlag)
  }

  /** Validation looks only at the three flags: adding, changing or removing
      any other field does not change its verdict. */
  lemma ExtraFieldsIgnored(body: Record, key: string, v: Json)
    requires key !in FlagNames
    ensures HasBooleanFlags(body[key := v]) == HasBooleanFlags(body)
    ensures HasBooleanFlags(body - {key}) == HasBooleanFlags(body)
  {
  }

  /** The default preferences: the three flags, all true, and nothing else. */
  function Defaults(): (d: Record)
    ensures HasBooleanFlags(d)
    ensures d.Keys == FlagNames
    ensures forall k :: k in d ==> d[k] == Bool(true)
  {
    map[VelocityFlag := Bool(true), BlockersFlag := Bool(true), HighlightsFlag := Bool(true)]
  }

  /** One request to the controller. `readFails`/`writeFails` say whether
      the file access of that request throws. */
  datatype Request =
    | Get(readFails: bool)
    | Update(body: Record, writeFails: bool)
    | Reset(writeFails: bool)

  /** The HTTP answer: 200 with the preferences it carries (if any), 400 for
      a body that fails validation, 500 when the file access throws. */
  datatype Response = Ok(preferences: Option<Record>) | BadRequest | ServerError

  function StatusCode(r: Response): nat
  {
    match r
    case Ok(_) => 200
    case BadRequest => 400
    case ServerError => 500
  }

  datatype Outcome = Outcome(stored: Option<Record>, response: Response)

  /** What one request does to the stored record and what it answers. */
  function Handle(stored: Option<Record>, req: Request): (o: Outcome)
    // only a successful update or reset writes; everything else leaves the record
    ensures !(o.response.Ok? && (req.Update? || req.Reset?)) ==> o.stored == stored
    // get: the defaults when nothing is stored, otherwise exactly the stored record
    ensures req.Get? && stored.None? ==> o.response == Ok(Some(Defaults()))
    ensures req.Get? && stored.Some? ==>
      o.response == (if req.readFails then ServerError else Ok(stored))
    // update: 400 exactly when a flag is not a boolean; otherwise the whole body is stored
    ensures req.Update? ==> (StatusCode(o.response) == 400 <==> !HasBooleanFlags(req.body))
    ensures req.Update? && HasBooleanFlags(req.body) ==>
      if req.writeFails then o.response == ServerError else o == Outcome(Some(req.body), Ok(None))
    // reset: the defaults are stored and returned
    ensures req.Reset? ==>
      o == if req.writeFails then Outcome(stored, ServerError)
           else Outcome(Some(Defaults()), Ok(Some(Defaults())))
  {
    match req
    case Get(readFails) =>
      if stored.None? then Outcome(stored, Ok(Some(Defaults())))
      else if readFails then Outcome(stored, ServerError)
      else Outcome(stored, Ok(Some(stored.value)))
    case Update(body, writeFails) =>
      if !HasBooleanFlags(body) then Outcome(stored, BadRequest)
      else if writeFails then Outcome(stored, ServerError)
      else Outcome(Some(body), Ok(None))
    case Reset(writeFails) =>
      if writeFails then Outcome(stored, ServerError)
      else Outcome(Some(Defaults()), Ok(Some(Defaults())))
  }

  /** The stored record after a sequence of requests. */
  function Replay(stored: Option<Record>, reqs: seq<Request>): Option<Record>
    decreases |reqs|
  {
    if reqs == [] then stored else Replay(Handle(stored, reqs[0]).stored, reqs[1..])
  }

  /** A stored record is either absent or passes the validation rule. */
  predicate WellFormed(stored: Option<Record>)
  {
    stored.Some? ==> HasBooleanFlags(stored.value)
  }

  /** Every request keeps the stored record well formed, so any sequence of
      requests does too. */
  lemma {:induction false} ReplayKeepsWellFormed(stored: Option<Record>, reqs: seq<Request>)
    requires WellFormed(stored)
    ensures WellFormed(Replay(stored, reqs))
    decreases |reqs|
  {
    if reqs != [] {
      ReplayKeepsWellFormed(Handle(stored, reqs[0]).stored, reqs[1..]);
    }
  }

  /** A get answers with a record that passes the validation rule whenever
      the stored record does. */
  lemma GetAnswersFlags(stored: Option<Record>, readFails: bool)
    requires WellFormed(stored)
    ensures Handle(stored, Get(readFails)).response.Ok? ==>
      HasBooleanFlags(Handle(stored, Get(readFails)).response.preferences.value)
  {
  }

  /** After a successful update, a get answers with exactly the body sent,
      extra fields included. */
  lemma GetAfterUpdate(stored: Option<Record>, body: Record, readFails: bool)
    requires HasBooleanFlags(body)
    ensures var s := Handle(stored, Update(body, false)).stored;
      Handle(s, Get(readFails)).response == if readFails then ServerError else Ok(Some(body))
  {
  }

  /** A rejected update cannot be observed: the next get answers as it would
      have without it. */
  lemma RejectedUpdateUnobservable(stored: Option<Record>, body: Record, writeFails: bool, readFails: bool)
    requires !HasBooleanFlags(body)
    ensures Handle(Handle(stored, Update(body, writeFails)).stored, Get(readFails)) ==
      Handle(stored, Get(readFails))
  {
  }

  /** Reset is idempotent: a second reset leaves the same record and answer. */
  lemma ResetIdempotent(stored: Option<Record>)
    ensures var once := Handle(stored, Reset(false));
      Handle(once.stored, Reset(false)) == once
  {
  }

  /** After a reset, a get answers with the defaults whether or not a record
      was stored before. */
  lemma GetAfterReset(stored: Option<Record>)
    ensures Handle(Handle(stored, Reset(false)).stored, Get(false)).response == Ok(Some(Defaults()))
  {
  }

  /** The controller with its persisted record. `stored` is None while the
      preferences file does not exist. */
  class PreferencesStore {
    var stored: Option<Record>

    ghost predicate Valid()
      reads this
    {
      WellFormed(stored)
    }

    /** No preferences file yet. */
    constructor ()
      ensures Valid() && stored == None
    {
      stored := None;
    }

    /** GET: the defaults when no file exists, otherwise the stored record. */
    method GetPreferences(readFails: bool) returns (resp: Response)
      requires Valid()
      ensures Outcome(stored, resp) == Handle(stored, Get(readFails))
      ensures resp.Ok? ==> HasBooleanFlags(resp.preferences.value)
    {
      GetAnswersFlags(stored, readFails);
      if stored.None? {
        return Ok(Some(Defaults()));
      }
      if readFails {
        return ServerError;
      }
      resp := Ok(Some(stored.value));
    }

    /** POST: validate the three flags, then overwrite the whole record. */
    method UpdatePreferences(body: Record, writeFails: bool) returns (resp: Response)
      requires Valid()
      modifies this
      ensures Valid()
      ensures Outcome(stored, resp) == Handle(old(stored), Update(body, writeFails))
    {
      if !IsBoolean(body, VelocityFlag) || !IsBoolean(body, BlockersFlag) || !IsBoolean(body, HighlightsFlag) {
        return BadRequest;
      }
      if writeFails {
        return ServerError;
      }
      stored := Some(body);
      resp := Ok(None);
    }

    /** POST reset: overwrite the record with the defaults and return them. */
    method ResetPreferences(writeFails: bool) returns (resp: Response)
      requires Valid()
      modifies this
      ensures Valid()
      ensures Outcome(stored, resp) == Handle(old(stored), Reset(writeFails))
    {
      var defaults := Defaults();
      if writeFails {
        return ServerError;
      }
      stored := Some(defaults);
      resp := Ok(Some(defaults));
    }
  }
}

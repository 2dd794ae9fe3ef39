/**
 * The task view of a raw-data document: its pipeline status string picks
 * one retriever task, or a retriever task and an analyzer task whose events
 * are parsed from the document.
 */
module Tasks {
  import opened Wrappers
  import opened Text
  import opened Json

  /** One entry of a decoded events list: a dictionary, or any other JSON value. */
  datatype EventEntry = EventDict(fields: Object) | NotDict

  /** What `json.loads` or the stored field gives: a list of entries, or some other JSON value. */
  datatype EventsData = EventList(entries: seq<EventEntry>) | NotList(truthy: bool)

  /** A document's `events` field: absent or `None`, a JSON text, or already-decoded data. */
  datatype EventsField = NoEvents | EventsText(text: string) | EventsDecoded(data: EventsData)

  /**
   * A raw-data document as the router reads it: `idText` is `str(_id)`,
   * `status` the stored value (`None` when the key is absent) and
   * `timestamp` the stored date, if any.
   */
  datatype Doc = Doc(idText: string, status: Option<Value>, timestamp: Option<int>, events: EventsField)

  /** An analysis step; the fields keep the stored values, with the defaults below where keys are missing. */
  datatype Event = Event(id: Value, name: Value, status: Value, message: Value, timestamp: int)

  datatype Task = Task(
    id: string, requestId: string, name: string, message: string, status: string, timestamp: int,
    events: seq<Event>)

  /**
   * Failures while building an event: a `ValueError` (caught, and the events
   * become empty) or a `TypeError` (not caught, so the request fails).
   */
  datatype Step<T> = Ok(value: T) | ValueErr | TypeErr(message: string)

  /** The services a request depends on: the clock, `isoformat` and `fromisoformat`, and `json.loads`. */
  datatype Env = Env(now: int, iso: int -> string, fromIso: string -> Option<int>,
                     decode: string -> Option<EventsData>)

  /** `doc.get("timestamp", datetime.utcnow())`. */
  function DocTime(doc: Doc, env: Env): int
  {
    if doc.timestamp.Some? then doc.timestamp.value else env.now
  }

  /** `create_retriever_task`: ids derived from the document id, a fixed name and message, never any events. */
  function RetrieverTask(doc: Doc, status: string, env: Env): (t: Task)
    ensures t.id == "retriever-" + doc.idText && t.requestId == doc.idText
    ensures t.status == status && t.events == [] && t.timestamp == DocTime(doc, env)
  {
    Task("retriever-" + doc.idText, doc.idText, "Data Retrieving", "Retrieve and process raw data from source",
         status, DocTime(doc, env), [])
  }

  /**
   * The event built from the dictionary at list position `i`: id `i + 1`,
   * name `Step i+1`, status `info` and an empty message when those keys are
   * missing; the timestamp text defaults to the document's own.
   */
  function MakeEvent(fields: Object, i: nat, docIso: string, fromIso: string -> Option<int>): (r: Step<Event>)
    ensures r.Ok? ==> r.value.id == GetOr(fields, "id", Num(i + 1))
                      && r.value.name == GetOr(fields, "name", Str("Step " + IntToString(i + 1)))
                      && r.value.status == GetOr(fields, "status", Str("info"))
                      && r.value.message == GetOr(fields, "text", Str(""))
    ensures "timestamp" !in fields ==> (r.Ok? <==> fromIso(docIso).Some?)
    ensures r.TypeErr? <==> "timestamp" in fields && !fields["timestamp"].Str?
    ensures var ts := GetOr(fields, "timestamp", Str(docIso));
            (r.Ok? ==> ts.Str? && fromIso(ts.s) == Some(r.value.timestamp))
            && (ts.Str? ==> (r.ValueErr? <==> fromIso(ts.s).None?))
  {
    var ts := GetOr(fields, "timestamp", Str(docIso));
    if !ts.Str? then TypeErr("fromisoformat: argument must be str")
    else
      var t := fromIso(ts.s);
      if t.None? then ValueErr
      else Ok(Event(GetOr(fields, "id", Num(i + 1)), GetOr(fields, "name", Str("Step " + IntToString(i + 1))),
                    GetOr(fields, "status", Str("info")), GetOr(fields, "text", Str("")), t.value))
  }

  /** The events of list positions `k` onwards; the first failing entry decides the failure. */
  function EventsFrom(entries: seq<EventEntry>, k: nat, docIso: string, fromIso: string -> Option<int>): Step<seq<Event>>
    requires k <= |entries|
    decreases |entries| - k
  {
    if k == |entries| then Ok([])
    else if entries[k].NotDict? then EventsFrom(entries, k + 1, docIso, fromIso)
    else
      match MakeEvent(entries[k].fields, k, docIso, fromIso)
      case Ok(e) =>
        var rest := EventsFrom(entries, k + 1, docIso, fromIso);
        if rest.Ok? then Ok([e] + rest.value) else rest
      case ValueErr => ValueErr
      case TypeErr(m) => TypeErr(m)
  }

  /** How many of the entries from position `k` on are dictionaries. */
  function DictCount(entries: seq<EventEntry>, k: nat): nat
    requires k <= |entries|
    decreases |entries| - k
  {
    if k == |entries| then 0 else (if entries[k].EventDict? then 1 else 0) + DictCount(entries, k + 1)
  }

  /** Only dictionaries become events: one per dictionary, nothing for other entries. */
  lemma {:induction false} OnlyDictsBecomeEvents(entries: seq<EventEntry>, k: nat, docIso: string,
                                                 fromIso: string -> Option<int>)
    requires k <= |entries|
    requires EventsFrom(entries, k, docIso, fromIso).Ok?
    ensures |EventsFrom(entries, k, docIso, fromIso).value| == DictCount(entries, k)
    decreases |entries| - k
  {
    if k < |entries| {
      OnlyDictsBecomeEvents(entries, k + 1, docIso, fromIso);
    }
  }

  /** A list without dictionaries yields no events at all. */
  lemma {:induction false} NoDictsNoEvents(entries: seq<EventEntry>, k: nat, docIso: string,
                                           fromIso: string -> Option<int>)
    requires k <= |entries|
    requires forall j :: k <= j < |entries| ==> entries[j].NotDict?
    ensures EventsFrom(entries, k, docIso, fromIso) == Ok([])
    decreases |entries| - k
  {
    if k < |entries| {
      NoDictsNoEvents(entries, k + 1, docIso, fromIso);
    }
  }

  /** The events of the analyzer task: empty unless the field is truthy and decodes to a list without a `ValueError`. */
  function AnalyzerEvents(doc: Doc, env: Env): (r: Step<seq<Event>>)
    ensures doc.events.NoEvents? ==> r == Ok([])
    ensures doc.events.EventsText? && doc.events.text != "" && env.decode(doc.events.text).None? ==> r == Ok([])
    ensures r.Ok? || r.TypeErr?
  {
    var data :=
      match doc.events
      case NoEvents => None
      case EventsText(s) => if s == "" then None else Some(env.decode(s))
      case EventsDecoded(d) =>
        if d.EventList? then (if |d.entries| == 0 then None else Some(Some(d)))
        else if d.truthy then Some(Some(d)) else None;
    if data.None? || data.value.None? || data.value.value.NotList? then Ok([])
    else
      var evs := EventsFrom(data.value.value.entries, 0, env.iso(DocTime(doc, env)), env.fromIso);
      if evs.ValueErr? then Ok([]) else evs
  }

  /** `create_analyzer_task` as a value: the task with the parsed events, or the uncaught error. */
  function AnalyzerTask(doc: Doc, status: string, env: Env): (r: Result<Task, string>)
    ensures r.Success? ==> r.value.id == "analyzer-" + doc.idText && r.value.requestId == doc.idText
                           && r.value.status == status && r.value.timestamp == DocTime(doc, env)
                           && Ok(r.value.events) == AnalyzerEvents(doc, env)
    ensures r.Failure? <==> AnalyzerEvents(doc, env).TypeErr?
  {
    var evs := AnalyzerEvents(doc, env);
    if evs.TypeErr? then Failure(evs.message)
    else Success(Task("analyzer-" + doc.idText, doc.idText, "Data Analysis", "Analyze retrieved data for insights",
                      status, DocTime(doc, env), evs.value))
  }

  /** The decoded list a document's `events` field yields, if its truthiness lets the loop run. */
  method EventList(doc: Doc, env: Env) returns (entries: Option<seq<EventEntry>>)
    ensures entries.None? ==> AnalyzerEvents(doc, env) == Ok([])
    ensures entries.Some? ==>
              var evs := EventsFrom(entries.value, 0, env.iso(DocTime(doc, env)), env.fromIso);
              AnalyzerEvents(doc, env) == if evs.ValueErr? then Ok([]) else evs
  {
    entries := None;
    match doc.events {
      case NoEvents =>
      case EventsText(s) =>
        if s != "" {
          var decoded := env.decode(s);
          if decoded.Some? && decoded.value.EventList? {
            entries := Some(decoded.value.entries);
          }
        }
      case EventsDecoded(d) =>
        if d.EventList? && |d.entries| > 0 {
          entries := Some(d.entries);
        }
    }
  }

  /**
   * The loop of `create_analyzer_task`: appends one event per dictionary
   * entry, in order, and stops at the first entry that raises.
   */
  method CollectEvents(es: seq<EventEntry>, docIso: string, fromIso: string -> Option<int>)
    returns (r: Step<seq<Event>>)
    ensures r == EventsFrom(es, 0, docIso, fromIso)
  {
    var events: seq<Event> := [];
    ghost var all := EventsFrom(es, 0, docIso, fromIso);
    if all.Ok? {
      assert events + all.value == all.value;
    }
    var i := 0;
    while i < |es|
      invariant 0 <= i <= |es|
      invariant EventsFrom(es, 0, docIso, fromIso) ==
                (var rest := EventsFrom(es, i, docIso, fromIso);
                 if rest.Ok? then Ok(events + rest.value) else rest)
    {
      if es[i].EventDict? {
        var e := MakeEvent(es[i].fields, i, docIso, fromIso);
        if e.ValueErr? {
          return ValueErr;
        } else if e.TypeErr? {
          return TypeErr(e.message);
        }
        ghost var rest := EventsFrom(es, i + 1, docIso, fromIso);
        if rest.Ok? {
          assert events + ([e.value] + rest.value) == (events + [e.value]) + rest.value;
        }
        events := events + [e.value];
      }
      i := i + 1;
    }
    assert events + [] == events;
    return Ok(events);
  }

  /**
   * `create_analyzer_task`: the events of the document's list, emptied by a
   * `ValueError` on any entry; a `TypeError` fails the call.
   */
  method CreateAnalyzerTask(doc: Doc, status: string, env: Env) returns (r: Result<Task, string>)
    ensures r == AnalyzerTask(doc, status, env)
  {
    var events: seq<Event> := [];
    var entries := EventList(doc, env);
    if entries.Some? {
      var collected := CollectEvents(entries.value, env.iso(DocTime(doc, env)), env.fromIso);
      if collected.TypeErr? {
        return Failure(collected.message);
      }
      if collected.Ok? {
        events := collected.value;
      }
    }
    r := Success(Task("analyzer-" + doc.idText, doc.idText, "Data Analysis", "Analyze retrieved data for insights",
                      status, DocTime(doc, env), events));
  }

  /** The stage suffix `status.split(":")[1]` of a status with at least one colon. */
  function Suffix(status: string): string
  {
    var parts := Split(status, ':');
    if |parts| >= 2 then parts[1] else ""
  }

  /** After the stage prefix, the suffix is the text up to the next colon, or all of it when there is none. */
  lemma SuffixAfterPrefix(stage: string, rest: string)
    requires ':' !in stage
    ensures ':' !in rest ==> Suffix(stage + [':'] + rest) == rest
    ensures forall y, z :: rest == y + [':'] + z && ':' !in y ==> Suffix(stage + [':'] + rest) == y
  {
    SplitPrefix(stage, rest, ':');
    if ':' !in rest {
      SplitNoSep(rest, ':');
    }
    forall y, z | rest == y + [':'] + z && ':' !in y
      ensures Suffix(stage + [':'] + rest) == y
    {
      SplitPrefix(y, z, ':');
    }
  }

  /** `status.startswith(p)`. */
  predicate StartsWith(s: string, p: string) { p <= s }

  /** A status starting with a colon-free stage and a colon has a second segment. */
  lemma StagedSplits(stage: string, s: string)
    requires ':' !in stage && StartsWith(s, stage + ":")
    ensures |Split(s, ':')| >= 2 && Split(s, ':')[1] == Suffix(s)
  {
    var rest := s[|stage| + 1..];
    assert s == stage + [':'] + rest;
    SplitPrefix(stage, rest, ':');
  }

  /**
   * `get_tasks_by_request_id` once the document is found: an `analyzer:`
   * status gives a completed retriever task followed by the analyzer task, a
   * `retriever:` status the retriever task alone, any other text a
   * `processing` retriever task; a stored status that is not text fails.
   */
  method GetTasks(doc: Doc, env: Env) returns (r: Result<seq<Task>, string>)
    ensures doc.status.Some? && !doc.status.value.Str? ==> r.Failure?
    ensures doc.status.None? ==> r == Success([RetrieverTask(doc, "processing", env)])
    ensures doc.status.Some? && doc.status.value.Str? ==>
              var s := doc.status.value.s;
              if StartsWith(s, "analyzer:") then
                var a := AnalyzerTask(doc, Suffix(s), env);
                (a.Success? ==> r == Success([RetrieverTask(doc, "completed", env), a.value]))
                && (a.Failure? ==> r == Failure(a.error))
              else if StartsWith(s, "retriever:") then r == Success([RetrieverTask(doc, Suffix(s), env)])
              else r == Success([RetrieverTask(doc, "processing", env)])
  {
    var status := if doc.status.Some? then doc.status.value else Str("");
    if !status.Str? {
      return Failure("'" + TypeName(Scalar(status)) + "' object has no attribute 'startswith'");
    }
    var s := status.s;
    var tasks: seq<Task> := [];
    if StartsWith(s, "analyzer:") {
      assert "analyzer" + ":" == "analyzer:";
      StagedSplits("analyzer", s);
      var analyzerStatus := Split(s, ':')[1];
      tasks := tasks + [RetrieverTask(doc, "completed", env)];
      var a := CreateAnalyzerTask(doc, analyzerStatus, env);
      if a.Failure? {
        return Failure(a.error);
      }
      tasks := tasks + [a.value];
      assert tasks == [RetrieverTask(doc, "completed", env), a.value];
    } else if StartsWith(s, "retriever:") {
      assert "retriever" + ":" == "retriever:";
      StagedSplits("retriever", s);
      var retrieverStatus := Split(s, ':')[1];
      tasks := tasks + [RetrieverTask(doc, retrieverStatus, env)];
      assert tasks == [RetrieverTask(doc, Suffix(s), env)];
    } else {
      tasks := tasks + [RetrieverTask(doc, "processing", env)];
      assert tasks == [RetrieverTask(doc, "processing", env)];
    }
    r := Success(tasks);
  }
}

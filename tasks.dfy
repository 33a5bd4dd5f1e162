/** The revision-history task: `execute` fetches a dated dump collection
    through the downloader, derives the database name from the resolved date,
    builds one `PageRevisionETL` per partition of the path list and calls
    `run` on them. The downloader and the ETL engine are stand-ins: the
    downloader is a function from the requested date to a collection, and an
    ETL instance is the record of its constructor arguments; every call of
    `download` and of `run` is appended to the task's trace. */
module Tasks {
  import opened Partition
  import opened StoreName

  datatype Option<T> = None | Some(value: T)

  type Path = string

  /** The language a task gets when none is given. */
  const DefaultLang: string := "scowiki"

  /** What the downloader hands back: the local dump file paths and the date
      of the collection they belong to. */
  datatype DumpCollection = DumpCollection(paths: seq<Path>, date: string)

  /** The downloader object kept in the task's `down` field, built for the
      task's language. */
  datatype Downloader = RevHistDownloader(lang: string)

  /** A `PageRevisionETL` instance, known by its constructor arguments. */
  datatype Etl = PageRevisionETL(paths: seq<Path>, lang: string, pageFan: int, revFan: int,
                                 dbName: string, dbUser: string, dbPassw: string)

  /** The arguments of `execute` that every ETL instance receives unchanged. */
  datatype Settings = Settings(pageFan: int, revFan: int, dbUser: string, dbPassw: string)

  /** A call to a collaborator, in the order `execute` makes it. */
  datatype Event =
    | Download(lang: string, requested: Option<string>)
    | Construct(etl: Etl)
    | Run(etl: Etl)

  /** How `execute` ends: normally, or with the `AttributeError` of calling
      `run` on `None`. */
  datatype Outcome = Finished | RunOnNone

  /** `e` carries the language `lang`, the database name `dbName` and the
      settings, whatever its paths. */
  predicate Configured(e: Etl, lang: string, dbName: string, s: Settings)
  {
    e.lang == lang && e.dbName == dbName && e.pageFan == s.pageFan && e.revFan == s.revFan
    && e.dbUser == s.dbUser && e.dbPassw == s.dbPassw
  }

  /** The ETL instances built from a collection, in construction order: one
      per part of the path list, each configured with the task's language,
      the database name of the resolved date and the settings. */
  function Instances(lang: string, col: DumpCollection, s: Settings): (etls: seq<Etl>)
    ensures |etls| == |Plan(col.paths)| && |etls| >= 1
    ensures forall i :: 0 <= i < |etls| ==> etls[i].paths == Plan(col.paths)[i]
    ensures forall i :: 0 <= i < |etls| ==> Configured(etls[i], lang, DbName(lang, col.date), s)
  {
    var parts := Plan(col.paths);
    var name := DbName(lang, col.date);
    seq(|parts|, i requires 0 <= i < |parts| =>
      PageRevisionETL(parts[i], lang, s.pageFan, s.revFan, name, s.dbUser, s.dbPassw))
  }

  /** The path lists of a sequence of ETL instances. */
  function PathsOf(etls: seq<Etl>): seq<seq<Path>>
  {
    seq(|etls|, i requires 0 <= i < |etls| => etls[i].paths)
  }

  /** The ETL instances of one execute between them hold every path of the
      collection once, in order. */
  lemma InstancesCoverPaths(lang: string, col: DumpCollection, s: Settings)
    ensures Concat(PathsOf(Instances(lang, col, s))) == col.paths
  {
    assert PathsOf(Instances(lang, col, s)) == Plan(col.paths);
  }

  /** What `self.etl` holds when the final `run` is reached: the multi-path
      branch never assigns it, so it keeps whatever it held before the call. */
  function EtlAtFinalRun(prior: Option<Etl>, etls: seq<Etl>): Option<Etl>
    requires |etls| >= 1
  {
    if |etls| > 1 then prior else Some(etls[0])
  }

  /** The final `self.etl.run()`: a run event when there is an instance,
      nothing (and the error) when there is none. */
  function FinalRun(e: Option<Etl>): seq<Event>
  {
    match e
    case None => []
    case Some(x) => [Run(x)]
  }

  /** How `execute` ends once the final `run` finds `e` in `self.etl`. */
  function OutcomeOf(e: Option<Etl>): Outcome
  {
    if e == None then RunOnNone else Finished
  }

  /** One constructor call per instance, in order. */
  function Constructions(etls: seq<Etl>): seq<Event>
  {
    seq(|etls|, i requires 0 <= i < |etls| => Construct(etls[i]))
  }

  /** One `run` call per instance, in order. */
  function Runs(etls: seq<Etl>): seq<Event>
  {
    seq(|etls|, i requires 0 <= i < |etls| => Run(etls[i]))
  }

  /** The calls `execute` makes after the download `d` once it holds the
      instances `etls`: every construction, the runs forced while the
      `Process` targets are evaluated (more than one instance only), then the
      final `run` on `self.etl`, which held `prior` before the call. */
  function Calls(d: Event, etls: seq<Etl>, prior: Option<Etl>): seq<Event>
    requires |etls| >= 1
  {
    [d] + Constructions(etls)
    + (if |etls| > 1 then Runs(etls) else [])
    + FinalRun(EtlAtFinalRun(prior, etls))
  }

  /** Where each kind of call sits in Calls: the download first and only
      there, then instance `i` constructed at position `1 + i`, then only runs. */
  lemma {:induction false} CallsLayout(d: Event, etls: seq<Etl>, prior: Option<Etl>)
    requires |etls| >= 1 && d.Download?
    ensures var t := Calls(d, etls, prior);
            && |t| >= 2 + |etls| && t[0] == d
            && (forall k :: 0 < k < 1 + |etls| ==> t[k] == Construct(etls[k - 1]))
            && (forall k :: 1 + |etls| <= k < |t| ==> t[k].Run?)
  {
    var head := [d] + Constructions(etls);
    var rest := (if |etls| > 1 then Runs(etls) else []) + FinalRun(EtlAtFinalRun(prior, etls));
    assert Calls(d, etls, prior) == head + rest;
    assert forall k :: 0 <= k < |rest| ==> rest[k].Run?;
  }

  /** The collaborator calls of one `execute` on a task for `lang` whose
      `date` field is `requested` and whose `etl` field is `prior`, when the
      downloader resolves `col`. */
  function ExecTrace(lang: string, requested: Option<string>, prior: Option<Etl>,
                     col: DumpCollection, s: Settings): seq<Event>
  {
    Calls(Download(lang, requested), Instances(lang, col, s), prior)
  }

  /** The download is the first call, and the only one. */
  lemma DownloadFirst(lang: string, requested: Option<string>, prior: Option<Etl>,
                      col: DumpCollection, s: Settings)
    ensures var t := ExecTrace(lang, requested, prior, col, s);
            |t| >= 3 && t[0] == Download(lang, requested)
            && forall i :: 0 < i < |t| ==> !t[i].Download?
  {
    CallsLayout(Download(lang, requested), Instances(lang, col, s), prior);
  }

  /** Every instance is constructed before any `run` is called. */
  lemma ConstructionsPrecedeRuns(lang: string, requested: Option<string>, prior: Option<Etl>,
                                 col: DumpCollection, s: Settings)
    ensures var t := ExecTrace(lang, requested, prior, col, s);
            forall i, j :: 0 <= i < j < |t| && t[i].Run? ==> !t[j].Construct?
  {
    CallsLayout(Download(lang, requested), Instances(lang, col, s), prior);
  }

  /** The constructed instances share everything but their paths: the
      language, both fan-out widths, the credentials, and a database name
      computed from the RESOLVED date (the requested one plays no part). */
  lemma ConstructionsShareConfig(lang: string, requested: Option<string>, prior: Option<Etl>,
                                 col: DumpCollection, s: Settings)
    ensures var t := ExecTrace(lang, requested, prior, col, s);
            forall i :: 0 <= i < |t| && t[i].Construct? ==>
              Configured(t[i].etl, lang, DbName(lang, col.date), s)
  {
    CallsLayout(Download(lang, requested), Instances(lang, col, s), prior);
  }

  /** More than one path: the halves are constructed, `etl1.run` then
      `etl2.run` happen one after the other while the `Process` objects are
      built, and the final call runs whatever `self.etl` held before, which
      for a task fresh from its constructor is `None`. */
  lemma MultiPathTrace(lang: string, requested: Option<string>, prior: Option<Etl>,
                       col: DumpCollection, s: Settings)
    requires |col.paths| > 1
    ensures var etls := Instances(lang, col, s);
            var name := DbName(lang, col.date);
            var n := |col.paths|;
            var e1 := PageRevisionETL(col.paths[..n / 2], lang, s.pageFan, s.revFan, name, s.dbUser, s.dbPassw);
            var e2 := PageRevisionETL(col.paths[n / 2..], lang, s.pageFan, s.revFan, name, s.dbUser, s.dbPassw);
            && etls == [e1, e2]
            && e1.paths + e2.paths == col.paths && e1.paths != [] && e2.paths != []
            && ExecTrace(lang, requested, prior, col, s)
               == [Download(lang, requested), Construct(e1), Construct(e2), Run(e1), Run(e2)] + FinalRun(prior)
            && OutcomeOf(EtlAtFinalRun(prior, etls)) == (if prior == None then RunOnNone else Finished)
  {
    var etls := Instances(lang, col, s);
    assert etls[0].paths == col.paths[..|col.paths| / 2];
    assert etls[1].paths == col.paths[|col.paths| / 2..];
  }

  /** At most one path, the empty collection included: one instance over the
      whole list is constructed and run exactly once, and `execute`
      finishes normally. */
  lemma SinglePathTrace(lang: string, requested: Option<string>, prior: Option<Etl>,
                        col: DumpCollection, s: Settings)
    requires |col.paths| <= 1
    ensures var e := PageRevisionETL(col.paths, lang, s.pageFan, s.revFan,
                                     DbName(lang, col.date), s.dbUser, s.dbPassw);
            && Instances(lang, col, s) == [e]
            && ExecTrace(lang, requested, prior, col, s) == [Download(lang, requested), Construct(e), Run(e)]
            && OutcomeOf(EtlAtFinalRun(prior, [e])) == Finished
  {
  }


  /** The fields of a task object: those `Task.__init__` sets (`lang`,
      `date`, `down`, `etl`), those only `execute` creates (`paths`, `etl1`,
      `etl2`; `None` until then) and the trace of collaborator calls. */
  datatype TaskState = TaskState(lang: string, date: Option<string>, down: Option<Downloader>,
                                 etl: Option<Etl>, paths: Option<seq<Path>>,
                                 etl1: Option<Etl>, etl2: Option<Etl>, trace: seq<Event>)

  /** A task fresh from its constructor. */
  function Initial(lang: string, date: Option<string>): TaskState
  {
    TaskState(lang, date, None, None, None, None, None, [])
  }

  /** One `execute` on a task in state `st`, the downloader resolving `col`:
      the new state and how the call ends, statement by statement. What this
      amounts to is stated by ExecutedMeetsSpec. */
  function Executed(st: TaskState, col: DumpCollection, s: Settings): (TaskState, Outcome)
  {
    var lang := st.lang;
    var s1 := st.(down := Some(RevHistDownloader(lang)), trace := st.trace + [Download(lang, st.date)]);
    var s2 := s1.(paths := Some(col.paths), date := Some(col.date));
    var name := DbName(lang, col.date);
    var n := |col.paths|;
    var s3 := (
      if n > 1 then
        var e1 := PageRevisionETL(col.paths[0..n / 2], lang, s.pageFan, s.revFan, name, s.dbUser, s.dbPassw);
        var e2 := PageRevisionETL(col.paths[n / 2..], lang, s.pageFan, s.revFan, name, s.dbUser, s.dbPassw);
        s2.(etl1 := Some(e1), etl2 := Some(e2),
            trace := s2.trace + [Construct(e1), Construct(e2), Run(e1), Run(e2)])
      else
        var e := PageRevisionETL(col.paths, lang, s.pageFan, s.revFan, name, s.dbUser, s.dbPassw);
        s2.(etl := Some(e), trace := s2.trace + [Construct(e)]));
    match s3.etl
    case None => (s3, RunOnNone)
    case Some(e) => (s3.(trace := s3.trace + [Run(e)]), Finished)
  }

  /** `execute` in terms of the partition plan: `lang` is kept, `down`,
      `paths` and `date` hold the downloader and what it returned, the
      instances of the plan go to `etl1`/`etl2` (more than one path) or to
      `etl` (otherwise), the trace grows by ExecTrace, and the call fails
      exactly when `self.etl` is `None` at the final `run`. */
  lemma ExecutedMeetsSpec(st: TaskState, col: DumpCollection, s: Settings)
    ensures var r := Executed(st, col, s);
            var etls := Instances(st.lang, col, s);
            && r.0.lang == st.lang && r.0.down == Some(RevHistDownloader(st.lang))
            && r.0.paths == Some(col.paths) && r.0.date == Some(col.date)
            && (if |etls| > 1 then r.0.etl1 == Some(etls[0]) && r.0.etl2 == Some(etls[1])
                else r.0.etl1 == st.etl1 && r.0.etl2 == st.etl2)
            && r.0.etl == EtlAtFinalRun(st.etl, etls)
            && r.0.trace == st.trace + ExecTrace(st.lang, st.date, st.etl, col, s)
            && r.1 == OutcomeOf(r.0.etl)
  {
    if |col.paths| > 1 {
      ExecutedMultiPath(st, col, s);
    } else {
      ExecutedSinglePath(st, col, s);
    }
  }

  /** The multi-path branch of ExecutedMeetsSpec. */
  lemma ExecutedMultiPath(st: TaskState, col: DumpCollection, s: Settings)
    requires |col.paths| > 1
    ensures var r := Executed(st, col, s);
            var etls := Instances(st.lang, col, s);
            && r.0 == st.(down := Some(RevHistDownloader(st.lang)), paths := Some(col.paths),
                          date := Some(col.date), etl1 := Some(etls[0]), etl2 := Some(etls[1]),
                          trace := st.trace + ExecTrace(st.lang, st.date, st.etl, col, s))
            && r.1 == OutcomeOf(st.etl)
  {
    MultiPathTrace(st.lang, st.date, st.etl, col, s);
    var etls := Instances(st.lang, col, s);
    var calls := [Download(st.lang, st.date), Construct(etls[0]), Construct(etls[1]), Run(etls[0]), Run(etls[1])];
    assert st.trace + [Download(st.lang, st.date)] + calls[1..] == st.trace + calls;
    assert st.trace + calls + FinalRun(st.etl) == st.trace + (calls + FinalRun(st.etl));
  }

  /** The single-path branch of ExecutedMeetsSpec. */
  lemma ExecutedSinglePath(st: TaskState, col: DumpCollection, s: Settings)
    requires |col.paths| <= 1
    ensures var r := Executed(st, col, s);
            var etls := Instances(st.lang, col, s);
            && r.0 == st.(down := Some(RevHistDownloader(st.lang)), paths := Some(col.paths),
                          date := Some(col.date), etl := Some(etls[0]),
                          trace := st.trace + ExecTrace(st.lang, st.date, st.etl, col, s))
            && r.1 == Finished
  {
    SinglePathTrace(st.lang, st.date, st.etl, col, s);
    var e := Instances(st.lang, col, s)[0];
    assert st.trace + [Download(st.lang, st.date)] + [Construct(e)] + [Run(e)]
        == st.trace + [Download(st.lang, st.date), Construct(e), Run(e)];
  }

  /** A fresh task with more than one path: both halves run, then `execute`
      fails on `self.etl`, which the constructor left `None`. */
  lemma FreshMultiPathFails(lang: string, date: Option<string>, col: DumpCollection, s: Settings)
    requires |col.paths| > 1
    ensures var r := Executed(Initial(lang, date), col, s);
            var etls := Instances(lang, col, s);
            && r.1 == RunOnNone && r.0.etl == None
            && r.0.trace == [Download(lang, date), Construct(etls[0]), Construct(etls[1]),
                             Run(etls[0]), Run(etls[1])]
  {
    ExecutedMeetsSpec(Initial(lang, date), col, s);
    MultiPathTrace(lang, date, None, col, s);
  }

  /** Executing again after a single-path run, with more than one path: the
      final call re-runs the instance left in `self.etl` by the earlier call,
      and `execute` finishes normally. */
  lemma RerunAfterSinglePath(st: TaskState, col: DumpCollection, s: Settings, e: Etl)
    requires st.etl == Some(e) && |col.paths| > 1
    ensures var r := Executed(st, col, s);
            r.1 == Finished && r.0.etl == Some(e) && r.0.trace[|r.0.trace| - 1] == Run(e)
  {
    ExecutedMeetsSpec(st, col, s);
  }

  /** The task object. `Task.__init__` (reached through the subclass's own
      constructor, whose default language is "scowiki") sets `lang` and
      `date`; `down` and `etl` start as `None`. */
  class RevisionHistoryTask {
    var lang: string
    var date: Option<string>
    var down: Option<Downloader>
    var etl: Option<Etl>
    var paths: Option<seq<Path>>
    var etl1: Option<Etl>
    var etl2: Option<Etl>
    var trace: seq<Event>

    /** The object's fields as a value. */
    function State(): TaskState
      reads this
    {
      TaskState(lang, date, down, etl, paths, etl1, etl2, trace)
    }

    constructor (lang: string := DefaultLang, date: Option<string> := None)
      ensures State() == Initial(lang, date)
    {
      this.lang := lang;
      this.date := date;
      down := None;
      etl := None;
      paths := None;
      etl1 := None;
      etl2 := None;
      trace := [];
    }

    /** `execute(page_fan, rev_fan, db_user, db_passw)`, the downloader
        returning `fetched`. */
    method Execute(fetched: DumpCollection, pageFan: int, revFan: int, dbUser: string, dbPassw: string)
      returns (outcome: Outcome)
      modifies this
      ensures (State(), outcome) == Executed(old(State()), fetched, Settings(pageFan, revFan, dbUser, dbPassw))
    {
      // `self.down` is built and asked for the collection; the calls are
      // collected locally and the fields written once the instances exist.
      var calls := trace + [Download(lang, date)];
      var col := fetched;
      var dbName := DbName(lang, col.date);
      var n := |col.paths|;
      if n > 1 {
        var e1 := PageRevisionETL(col.paths[0..n / 2], lang, pageFan, revFan, dbName, dbUser, dbPassw);
        var e2 := PageRevisionETL(col.paths[n / 2..], lang, pageFan, revFan, dbName, dbUser, dbPassw);
        // `Process(target=etl.run())` calls `run` while the argument is
        // evaluated, so `etl1.run()` finishes before `etl2.run()` starts; each
        // `Process` gets whatever `run()` returned as its target.
        calls := calls + [Construct(e1), Construct(e2), Run(e1), Run(e2)];
        etl1, etl2 := Some(e1), Some(e2);
      } else {
        var e := PageRevisionETL(col.paths, lang, pageFan, revFan, dbName, dbUser, dbPassw);
        calls := calls + [Construct(e)];
        etl := Some(e);
      }
      down, paths, date, trace := Some(RevHistDownloader(lang)), Some(col.paths), Some(col.date), calls;
      match etl {
        case None =>
          outcome := RunOnNone;
        case Some(e) =>
          trace := trace + [Run(e)];
          outcome := Finished;
      }
    }
  }

  /** A task built with a language and a requested date and executed once:
      with more than one path the final `run` finds `self.etl` still `None`
      from the constructor, and `execute` ends in the error after both
      halves have run. */
  method ExecuteNewTask(lang: string, date: Option<string>,
                        download: (Downloader, Option<string>) -> DumpCollection,
                        pageFan: int, revFan: int, dbUser: string, dbPassw: string)
    returns (outcome: Outcome, calls: seq<Event>)
    ensures var col := download(RevHistDownloader(lang), date);
            var s := Settings(pageFan, revFan, dbUser, dbPassw);
            && calls == ExecTrace(lang, date, None, col, s)
            && (outcome == RunOnNone <==> |col.paths| > 1)
  {
    var task := new RevisionHistoryTask(lang, date);
    var col := download(RevHistDownloader(lang), date);
    outcome := task.Execute(col, pageFan, revFan, dbUser, dbPassw);
    calls := task.trace;
    ExecutedMeetsSpec(Initial(lang, date), col, Settings(pageFan, revFan, dbUser, dbPassw));
  }
}

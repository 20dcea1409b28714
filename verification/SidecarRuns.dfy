/** The sidecar over whole runs: its disk, its current path and its growth counter move in
  * steps, and every run reads what an uncompacted log would. */
module SidecarRuns {
  import opened Wrappers
  import opened Stamps
  import opened SidecarFile

  /** How carrying one journal over to another path ended. */
  datatype MoveOutcome = Unreadable | Failed | LeftBehind | Moved

  datatype Sidecar = Sidecar(files: map<string, File>, path: string, bound: Option<string>, growth: int)

  function FileIn(files: map<string, File>, p: string): File { if p in files then files[p] else [] }

  // ---- Steps ----------------------------------------------------------------

  /** Replaces the current file by its canonical form, or leaves it alone. */
  function Rewrite(s: Sidecar, ok: bool): Sidecar {
    s.(files := if ok && s.path in s.files then s.files[s.path := Rewritten(s.files[s.path])] else s.files, growth := 0)
  }

  function CompactCurrent(s: Sidecar, ok: bool): Sidecar { Rewrite(s, ok) }

  /** Re-measures the current file and rewrites it when its baseline cannot be trusted or its
    * growth is spent. */
  function Activate(s: Sidecar, ok: bool): Sidecar {
    if s.path !in s.files then s.(growth := 0)
    else if SpentOrUntrusted(s.files[s.path]) then Rewrite(s, ok)
    else s.(growth := Excess(s.files[s.path]))
  }

  /** A new generation starts on its pending journal; those of earlier ones are dropped. */
  function Start(s: Sidecar, pendingPath: string, orphans: set<string>, ok: bool): Sidecar {
    Activate(Sidecar(s.files - (orphans - {pendingPath}), pendingPath, None, 0), ok)
  }

  /** Records one message, unless its write fails. */
  function Write(s: Sidecar, r: Record): Sidecar {
    s.(files := s.files[s.path := FileIn(s.files, s.path) + [RecordLine(r)]], growth := s.growth + r.bytes)
  }

  function AppendTo(s: Sidecar, r: Record, written: bool, ok: bool): Sidecar {
    if !written then s
    else if Write(s, r).growth >= GROWTH_BUDGET_BYTES then CompactCurrent(Write(s, r), ok)
    else Write(s, r)
  }

  /** Renames onto a free path, appends onto an existing file; true when it appended and the
    * source is gone. */
  function MoveFile(files: map<string, File>, source: string, target: string,
                    outcome: MoveOutcome): (map<string, File>, bool) {
    if source !in files || outcome.Unreadable? || outcome.Failed? then (files, false)
    else if target !in files then (files[target := files[source]] - {source}, false)
    else
      var merged := files[target := files[target] + files[source]];
      if outcome.LeftBehind? then (merged, false) else (merged - {source}, true)
  }

  /** Points the sidecar at a session's file. `target` is None while the transcript directory
    * cannot be resolved. */
  function Bind(s: Sidecar, session: string, wellFormed: bool, target: Option<string>, outcome: MoveOutcome,
                ok: bool): Sidecar {
    if s.bound == Some(session) || !wellFormed || target.None? then s
    else if target.value == s.path then Activate(s.(bound := Some(session)), ok)
    else
      var (files, merged) := MoveFile(s.files, s.path, target.value, outcome);
      var t := s.(files := files, path := target.value, bound := Some(session));
      if merged then CompactCurrent(t, ok) else Activate(t, ok)
  }

  function ReadOf(s: Sidecar): seq<Record> {
    if s.path in s.files then ScanOf(s.files[s.path]).canonical else []
  }

  /** Reading rewrites a file that is not canonical. */
  function AfterRead(s: Sidecar, ok: bool): Sidecar {
    if s.path in s.files && NeedsCanonicalRewrite(ScanOf(s.files[s.path]), Size(s.files[s.path]))
    then Rewrite(s, ok)
    else s
  }

  datatype Event =
    | OnStart(pendingPath: string, orphans: set<string>, ok: bool)
    | OnAppend(record: Record, written: bool, ok: bool)
    | OnBind(session: string, wellFormed: bool, target: Option<string>, outcome: MoveOutcome, ok: bool)
    | OnRead(ok: bool)

  function Step(s: Sidecar, ev: Event): Sidecar {
    match ev
    case OnStart(p, orphans, ok) => Start(s, p, orphans, ok)
    case OnAppend(r, written, ok) => AppendTo(s, r, written, ok)
    case OnBind(session, wellFormed, target, outcome, ok) => Bind(s, session, wellFormed, target, outcome, ok)
    case OnRead(ok) => AfterRead(s, ok)
  }

  function After(s: Sidecar, evs: seq<Event>): Sidecar {
    if evs == [] then s else Step(After(s, evs[..|evs| - 1]), evs[|evs| - 1])
  }

  // ---- The uncompacted log --------------------------------------------------

  /** The same calls on a log that never compacts: everything recorded under each path. */
  datatype Log = Log(entries: map<string, seq<Record>>, path: string, bound: Option<string>)

  function EntriesIn(entries: map<string, seq<Record>>, p: string): seq<Record> {
    if p in entries then entries[p] else []
  }

  function LogMove(entries: map<string, seq<Record>>, source: string, target: string,
                   outcome: MoveOutcome): map<string, seq<Record>> {
    if source !in entries || outcome.Unreadable? || outcome.Failed? then entries
    else
      var carried := entries[target := EntriesIn(entries, target) + entries[source]];
      if target in entries && outcome.LeftBehind? then carried else carried - {source}
  }

  function LogStep(l: Log, ev: Event): Log {
    match ev
    case OnStart(p, orphans, _) => Log(l.entries - (orphans - {p}), p, None)
    case OnAppend(r, written, _) =>
      if written then l.(entries := l.entries[l.path := EntriesIn(l.entries, l.path) + [r]]) else l
    case OnBind(session, wellFormed, target, outcome, _) =>
      if l.bound == Some(session) || !wellFormed || target.None? then l
      else if target.value == l.path then l.(bound := Some(session))
      else Log(LogMove(l.entries, l.path, target.value, outcome), target.value, Some(session))
    case OnRead(_) => l
  }

  function LogAfter(l: Log, evs: seq<Event>): Log {
    if evs == [] then l else LogStep(LogAfter(l, evs[..|evs| - 1]), evs[|evs| - 1])
  }

  // ---- Refinement -----------------------------------------------------------

  /** The file came about by recording exactly `log`, through whatever rewrites and merges; with
    * `one`, all of them by this build. */
  ghost predicate Tells(one: bool, f: File, log: seq<Record>) {
    exists st: Story :: (one ==> OneBuild(st)) && FileOf(st) == f && HistoryOf(st) == log
  }

  lemma TellsNothing(one: bool)
    ensures Tells(one, [], [])
  {
    var st := Fresh;
    assert OneBuild(st) && FileOf(st) == [] && HistoryOf(st) == [];
  }

  lemma TellsAppend(one: bool, f: File, log: seq<Record>, r: Record)
    requires Tells(one, f, log)
    ensures Tells(one, f + [RecordLine(r)], log + [r])
  {
    var st: Story :| (one ==> OneBuild(st)) && FileOf(st) == f && HistoryOf(st) == log;
    var more := Story.Append(st, r);
    assert FileOf(more) == f + [RecordLine(r)] && HistoryOf(more) == log + [r] && (one ==> OneBuild(more));
  }

  lemma TellsRewrite(one: bool, f: File, log: seq<Record>)
    requires Tells(one, f, log)
    ensures Tells(one, Rewritten(f), log)
  {
    var st: Story :| (one ==> OneBuild(st)) && FileOf(st) == f && HistoryOf(st) == log;
    var more := Compact(st, MAX_REPLAY_RECORDS);
    assert FileOf(more) == Rewritten(f) && HistoryOf(more) == log && (one ==> OneBuild(more));
  }

  lemma TellsMerge(one: bool, f: File, log: seq<Record>, g: File, other: seq<Record>)
    requires Tells(one, f, log) && Tells(one, g, other)
    ensures Tells(one, f + g, log + other)
  {
    var st: Story :| (one ==> OneBuild(st)) && FileOf(st) == f && HistoryOf(st) == log;
    var st': Story :| (one ==> OneBuild(st')) && FileOf(st') == g && HistoryOf(st') == other;
    var more := Merge(st, st');
    assert FileOf(more) == f + g && HistoryOf(more) == log + other && (one ==> OneBuild(more));
  }

  ghost predicate DiskTells(one: bool, files: map<string, File>, entries: map<string, seq<Record>>) {
    files.Keys == entries.Keys && forall p :: p in files ==> Tells(one, files[p], entries[p])
  }

  ghost predicate Refines(one: bool, s: Sidecar, l: Log) {
    s.path == l.path && s.bound == l.bound && DiskTells(one, s.files, l.entries)
  }

  lemma DiskIn(one: bool, files: map<string, File>, entries: map<string, seq<Record>>, p: string)
    requires DiskTells(one, files, entries)
    ensures Tells(one, FileIn(files, p), EntriesIn(entries, p)) && (p in files <==> p in entries)
  {
    hide Tells;
    TellsNothing(one);
  }

  lemma DiskWith(one: bool, files: map<string, File>, entries: map<string, seq<Record>>, p: string, f: File,
                 log: seq<Record>)
    requires DiskTells(one, files, entries) && Tells(one, f, log)
    ensures DiskTells(one, files[p := f], entries[p := log])
  {
    hide Tells;
  }

  lemma DiskWithout(one: bool, files: map<string, File>, entries: map<string, seq<Record>>, gone: set<string>)
    requires DiskTells(one, files, entries)
    ensures DiskTells(one, files - gone, entries - gone)
  {
    hide Tells;
  }

  lemma RewriteRefines(one: bool, s: Sidecar, l: Log, ok: bool)
    requires Refines(one, s, l)
    ensures Refines(one, Rewrite(s, ok), l)
  {
    hide DiskTells, Tells;
    if ok && s.path in s.files {
      DiskIn(one, s.files, l.entries, s.path);
      TellsRewrite(one, s.files[s.path], l.entries[s.path]);
      DiskWith(one, s.files, l.entries, s.path, Rewritten(s.files[s.path]), l.entries[s.path]);
      assert l.entries[s.path := l.entries[s.path]] == l.entries;
    }
  }

  lemma ActivateRefines(one: bool, s: Sidecar, l: Log, ok: bool)
    requires Refines(one, s, l)
    ensures Refines(one, Activate(s, ok), l)
  {
    hide Rewrite, DiskTells;
    RewriteRefines(one, s, l, ok);
  }

  lemma MoveRefines(one: bool, files: map<string, File>, entries: map<string, seq<Record>>, source: string,
                    target: string,
                    outcome: MoveOutcome)
    requires DiskTells(one, files, entries) && source != target
    ensures DiskTells(one, MoveFile(files, source, target, outcome).0, LogMove(entries, source, target, outcome))
  {
    hide DiskTells, Tells;
    DiskIn(one, files, entries, source);
    DiskIn(one, files, entries, target);
    if source in files && !outcome.Unreadable? && !outcome.Failed? {
      var f, log := FileIn(files, target) + files[source], EntriesIn(entries, target) + entries[source];
      TellsMerge(one, FileIn(files, target), EntriesIn(entries, target), files[source], entries[source]);
      DiskWith(one, files, entries, target, f, log);
      DiskWithout(one, files[target := f], entries[target := log], {source});
      if target !in files { assert f == files[source]; }
    }
  }

  lemma StepRefines(one: bool, s: Sidecar, l: Log, ev: Event)
    requires Refines(one, s, l)
    ensures Refines(one, Step(s, ev), LogStep(l, ev))
  {
    hide DiskTells, Tells, Rewrite, Activate, MoveFile, LogMove, NeedsCanonicalRewrite;
    match ev
    case OnStart(p, orphans, ok) =>
      DiskWithout(one, s.files, l.entries, orphans - {p});
      ActivateRefines(one, Sidecar(s.files - (orphans - {p}), p, None, 0), LogStep(l, ev), ok);
    case OnAppend(r, written, ok) =>
      if written {
        DiskIn(one, s.files, l.entries, s.path);
        TellsAppend(one, FileIn(s.files, s.path), EntriesIn(l.entries, s.path), r);
        DiskWith(one, s.files, l.entries, s.path, FileIn(s.files, s.path) + [RecordLine(r)],
                 EntriesIn(l.entries, s.path) + [r]);
        RewriteRefines(one, Write(s, r), LogStep(l, ev), ok);
      }
    case OnBind(session, wellFormed, target, outcome, ok) => BindRefines(one, s, l, session, wellFormed, target,
                                                                         outcome, ok);
    case OnRead(ok) => RewriteRefines(one, s, l, ok);
  }

  lemma BindRefines(one: bool, s: Sidecar, l: Log, session: string, wellFormed: bool, target: Option<string>,
                    outcome: MoveOutcome, ok: bool)
    requires Refines(one, s, l)
    ensures Refines(one, Bind(s, session, wellFormed, target, outcome, ok),
                    LogStep(l, OnBind(session, wellFormed, target, outcome, ok)))
  {
    hide DiskTells, Tells, Rewrite, Activate, MoveFile, LogMove;
    var m := LogStep(l, OnBind(session, wellFormed, target, outcome, ok));
    if s.bound != Some(session) && wellFormed && target.Some? {
      if target.value == s.path {
        ActivateRefines(one, s.(bound := Some(session)), m, ok);
      } else {
        MoveRefines(one, s.files, l.entries, s.path, target.value, outcome);
        var t := s.(files := MoveFile(s.files, s.path, target.value, outcome).0, path := target.value,
                    bound := Some(session));
        ActivateRefines(one, t, m, ok);
        RewriteRefines(one, t, m, ok);
      }
    }
  }

  lemma {:induction false} RunRefines(one: bool, s: Sidecar, l: Log, evs: seq<Event>)
    requires Refines(one, s, l)
    ensures Refines(one, After(s, evs), LogAfter(l, evs))
  {
    hide Refines, Step, LogStep;
    if evs != [] {
      RunRefines(one, s, l, evs[..|evs| - 1]);
      StepRefines(one, After(s, evs[..|evs| - 1]), LogAfter(l, evs[..|evs| - 1]), evs[|evs| - 1]);
    }
  }

  // ---- Promises -------------------------------------------------------------

  lemma ToldReadIsExact(one: bool, f: File, log: seq<Record>)
    requires Tells(one, f, log)
    ensures var r := Retained(f);
            && r <= MAX_REPLAY_RECORDS && Tail(ScanOf(f).canonical, r) == Cap(log, r)
            && (one ==> r == MAX_REPLAY_RECORDS && ScanOf(f).canonical == Cap(log, MAX_REPLAY_RECORDS))
  {
    hide Retained, FileOf, HistoryOf;
    var st: Story :| (one ==> OneBuild(st)) && FileOf(st) == f && HistoryOf(st) == log;
    NewestRetainedAreExact(st);
    RetainedBound(f);
    if one {
      OneBuildKeepsTheCap(st);
      RetainedIsSmallestCap(st);
    }
  }

  lemma EmptyCap(max: nat)
    ensures Cap([], max) == []
  {
  }

  /** Over every run of starts, appends, binds, reads and the compactions they cause, by this
    * build from an empty disk, failed writes and rewrites included: a read returns the newest 200
    * of everything recorded under the current path. */
  lemma ReadsTheWholeLog(evs: seq<Event>, path: string)
    ensures var s, l := After(Sidecar(map[], path, None, 0), evs), LogAfter(Log(map[], path, None), evs);
            s.path == l.path && ReadOf(s) == Cap(EntriesIn(l.entries, l.path), MAX_REPLAY_RECORDS)
  {
    hide DiskTells, Tells, Step, LogStep, Cap, ScanOf;
    var s0, l0 := Sidecar(map[], path, None, 0), Log(map[], path, None);
    EmptyDisk();
    RunRefines(true, s0, l0, evs);
    ReadRefines(true, After(s0, evs), LogAfter(l0, evs));
  }

  lemma EmptyDisk()
    ensures DiskTells(true, map[], map[])
  {
  }

  lemma ReadRefines(one: bool, s: Sidecar, l: Log)
    requires Refines(one, s, l)
    ensures var r := Retained(FileIn(s.files, s.path));
            && Tail(ReadOf(s), r) == Cap(EntriesIn(l.entries, l.path), r)
            && (one ==> ReadOf(s) == Cap(EntriesIn(l.entries, l.path), MAX_REPLAY_RECORDS))
  {
    hide DiskTells, Tells, Cap, ScanOf;
    DiskIn(one, s.files, l.entries, s.path);
    EmptyCap(MAX_REPLAY_RECORDS);
    if s.path in s.files {
      ToldReadIsExact(one, s.files[s.path], l.entries[s.path]);
    } else {
      EmptyCap(Retained([]));
      EmptyTail(Retained([]));
    }
  }

  lemma EmptyTail(max: nat)
    ensures Tail([], max) == []
  {
  }

  /** On a disk other builds wrote to as well, the newest records the markers vouch for are still
    * the newest of everything recorded. */
  lemma ReadsWhatMarkersVouchFor(s: Sidecar, l: Log, evs: seq<Event>)
    requires Refines(false, s, l)
    ensures var t, m := After(s, evs), LogAfter(l, evs);
            var r := Retained(FileIn(t.files, t.path));
            Tail(ReadOf(t), r) == Cap(EntriesIn(m.entries, m.path), r)
  {
    hide Refines, Step, LogStep, Cap, Retained;
    RunRefines(false, s, l, evs);
    ReadRefines(false, After(s, evs), LogAfter(l, evs));
  }

  // ---- The growth budget ----------------------------------------------------

  /** The counter says how far the current file is past a baseline it carries, and that is less
    * than the budget. */
  ghost predicate Measured(s: Sidecar) {
    var f := FileIn(s.files, s.path);
    s.growth == Excess(f) < GROWTH_BUDGET_BYTES && Plain(f)
  }

  lemma EmptyIsPlain()
    ensures Excess([]) == 0 && Plain([])
  {
  }

  lemma RewriteMeasures(s: Sidecar)
    ensures Measured(Rewrite(s, true))
  {
    hide Excess, Plain;
    EmptyIsPlain();
    if s.path in s.files { RewriteResetsExcess(s.files[s.path]); }
  }

  lemma UnspentIsPlain(f: File)
    requires !SpentOrUntrusted(f)
    ensures Plain(f) && Excess(f) < GROWTH_BUDGET_BYTES
  {
    hide ScanOf, Size;
  }

  lemma ActivateMeasures(s: Sidecar)
    ensures Measured(Activate(s, true))
  {
    hide Excess, Plain, SpentOrUntrusted;
    EmptyIsPlain();
    RewriteMeasures(s);
    if s.path in s.files && !SpentOrUntrusted(s.files[s.path]) { UnspentIsPlain(s.files[s.path]); }
  }

  predicate RewritesWork(ev: Event) { ev.ok }

  lemma StepMeasures(s: Sidecar, ev: Event)
    requires (ev.OnStart? || Measured(s)) && RewritesWork(ev)
    ensures Measured(Step(s, ev))
  {
    hide Excess, Plain, Rewrite, Activate, MoveFile, NeedsCanonicalRewrite;
    match ev
    case OnStart(p, orphans, ok) => ActivateMeasures(Sidecar(s.files - (orphans - {p}), p, None, 0));
    case OnAppend(r, written, ok) =>
      if written {
        RewriteMeasures(Write(s, r));
        AppendGrowsExcess(FileIn(s.files, s.path), r);
      }
    case OnBind(session, wellFormed, target, outcome, ok) => BindMeasures(s, session, wellFormed, target, outcome);
    case OnRead(ok) => RewriteMeasures(s);
  }

  lemma BindMeasures(s: Sidecar, session: string, wellFormed: bool, target: Option<string>, outcome: MoveOutcome)
    requires Measured(s)
    ensures Measured(Bind(s, session, wellFormed, target, outcome, true))
  {
    hide Excess, Plain, Rewrite, Activate, MoveFile;
    ActivateMeasures(s.(bound := Some(session)));
    if target.Some? {
      var files := MoveFile(s.files, s.path, target.value, outcome).0;
      var t := s.(files := files, path := target.value, bound := Some(session));
      ActivateMeasures(t);
      RewriteMeasures(t);
    }
  }

  /** While rewrites succeed, the current file is after every step of a generation less than the
    * growth budget past its baseline, whatever disk the generation started on. */
  lemma {:induction false} StaysWithinBudget(s: Sidecar, start: Event, evs: seq<Event>)
    requires start.OnStart? && RewritesWork(start) && forall k :: 0 <= k < |evs| ==> RewritesWork(evs[k])
    ensures var t := After(Step(s, start), evs);
            Measured(t) && Excess(FileIn(t.files, t.path)) < GROWTH_BUDGET_BYTES
  {
    hide Step, Excess, Plain;
    if evs == [] {
      StepMeasures(s, start);
    } else {
      StaysWithinBudget(s, start, evs[..|evs| - 1]);
      StepMeasures(After(Step(s, start), evs[..|evs| - 1]), evs[|evs| - 1]);
    }
  }

  // ---- What a read leaves behind --------------------------------------------

  /** Nothing of the file is superseded, over the cap, garbage or of another build's kind, and a
    * baseline it carries is believable. */
  predicate Tidy(f: File) {
    && |StampSet(Records(f))| == |Records(f)| <= MAX_REPLAY_RECORDS
    && (forall i :: 0 <= i < |f| ==> !f[i].Malformed? && !f[i].UnknownMarker?)
    && (Markers(f) == []
        || (|Markers(f)| == 1 && Markers(f)[0].lineIndex == 0
            && Markers(f)[0].lineBytes + Markers(f)[0].baselineBytes <= Size(f)))
  }

  lemma {:induction false} StampsAreKeys(rs: seq<Record>)
    ensures StampSet(rs) == Latest(rs).Keys && |StampSet(rs)| <= |rs|
  {
    if rs != [] {
      StampsAreKeys(rs[..|rs| - 1]);
      assert rs == rs[..|rs| - 1] + [rs[|rs| - 1]];
    }
  }

  /** A cap holds as many records as there are stamps, up to its size. */
  lemma CapSize(rs: seq<Record>, max: nat)
    ensures |Cap(rs, max)| == if |StampSet(rs)| <= max then |StampSet(rs)| else max
  {
    CanonCorrect(rs);
    IncreasingStamps(Canon(rs));
    StampsAreKeys(rs);
    StampsAreKeys(Canon(rs));
  }

  lemma {:induction false} CountsFind(f: File)
    ensures CountMalformed(f) == 0 <==> forall i :: 0 <= i < |f| ==> !f[i].Malformed?
    ensures CountUnknown(f) == 0 <==> forall i :: 0 <= i < |f| ==> !f[i].UnknownMarker?
  {
    if f != [] {
      CountsFind(f[..|f| - 1]);
      assert f == f[..|f| - 1] + [f[|f| - 1]];
    }
  }

  /** A read asks for a rewrite exactly when the file is not tidy. */
  lemma RewritesTheUntidy(f: File)
    ensures NeedsCanonicalRewrite(ScanOf(f), Size(f)) <==> !Tidy(f)
  {
    hide Records, CountMalformed, CountUnknown, Markers, Size, Cap, StampSet;
    CountsFind(f);
    StampsAreKeys(Records(f));
    CapSize(Records(f), MAX_REPLAY_RECORDS);
  }

  /** A read leaves a tidy file as it is, and makes any other one tidy when its rewrite succeeds; what
    * is read stays the same. */
  lemma ReadTidiesUp(s: Sidecar)
    ensures ReadOf(AfterRead(s, true)) == ReadOf(s)
    ensures s.path in s.files && Tidy(s.files[s.path]) ==> AfterRead(s, true) == s
    ensures s.path in s.files ==> Tidy(AfterRead(s, true).files[s.path])
  {
    hide Rewritten, Cap, Tidy, NeedsCanonicalRewrite;
    if s.path in s.files {
      var f := s.files[s.path];
      RewritesTheUntidy(f);
      RewritesTheUntidy(Rewritten(f));
      RewriteIsFixpoint(f);
    }
  }

  // ---- When a file is rewritten ---------------------------------------------

  /** An append adds its line and nothing else, until the growth past the baseline spends the budget;
    * then the file is rewritten. No other file is touched. */
  lemma AppendRewritesOnlyWhenSpent(s: Sidecar, r: Record)
    requires Measured(s)
    ensures var f, t := FileIn(s.files, s.path), Step(s, OnAppend(r, true, true));
            t.files == s.files[s.path := if Excess(f) + r.bytes < GROWTH_BUDGET_BYTES then f + [RecordLine(r)]
                                         else Rewritten(f + [RecordLine(r)])]
    ensures Step(s, OnAppend(r, false, true)) == s
  {
    hide Excess, Plain, Rewritten;
  }

  /** A path that becomes current keeps a file whose growth is measured and unspent. */
  predicate Usable(f: File) {
    && (forall i :: 0 <= i < |f| ==> !f[i].UnknownMarker?)
    && (|| (Markers(f) == [] && Size(f) < GROWTH_BUDGET_BYTES)
        || (|Markers(f)| == 1 && Markers(f)[0].lineIndex == 0
            && 0 <= Size(f) - (Markers(f)[0].lineBytes + Markers(f)[0].baselineBytes) < GROWTH_BUDGET_BYTES))
  }

  lemma SpentIsUnusable(f: File)
    ensures SpentOrUntrusted(f) <==> !Usable(f)
  {
    hide Records, CountMalformed, CountUnknown, Markers, Size, Cap;
    CountsFind(f);
  }

  /** A session's file that is usable when the sidecar moves onto it stays as it is, any other is
    * rewritten; and a file that was merged is always rewritten. */
  lemma BindRewritesTheUnusable(s: Sidecar, session: string, target: string, outcome: MoveOutcome)
    requires s.bound != Some(session)
    ensures var t := Step(s, OnBind(session, true, Some(target), outcome, true));
            var carried := s.path in s.files && s.path != target && !outcome.Unreadable? && !outcome.Failed?;
            var f := if !carried then FileIn(s.files, target) else FileIn(s.files, target) + s.files[s.path];
            var merged := carried && target in s.files && !outcome.LeftBehind?;
            && t.path == target && t.bound == Some(session)
            && (target in t.files <==> target in s.files || carried)
            && (target in t.files ==> t.files[target] == if merged || !Usable(f) then Rewritten(f) else f)
  {
    hide Rewritten, Usable, SpentOrUntrusted, Excess;
    SpentIsUnusable(FileIn(s.files, target));
    if s.path in s.files {
      SpentIsUnusable(FileIn(s.files, target) + s.files[s.path]);
      assert [] + s.files[s.path] == s.files[s.path];
    }
  }
}

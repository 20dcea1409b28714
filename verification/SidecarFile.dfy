/** The sidecar file as a sequence of lines, the scan that reads it, the canonical
  * rewrite, and what any mixture of appends, rewrites and merges preserves. */
module SidecarFile {
  import opened Stamps
  import opened Wrappers

  const MAX_REPLAY_RECORDS: pos := 200
  const GROWTH_BUDGET_BYTES: nat := 4 * 1024 * 1024

  type pos = n: nat | n > 0 witness 1

  /** One line of the file. Every line knows its length, newline included. */
  datatype Line =
    | RecordLine(record: Record)
    | MarkerLine(retainedCap: pos, baselineBytes: nat, markerBytes: nat)
    | UnknownMarker(unknownBytes: nat)
    | Malformed(malformedBytes: nat)
    | Blank(blankBytes: nat)

  type File = seq<Line>

  function LineBytes(line: Line): nat {
    match line
    case RecordLine(r) => r.bytes
    case MarkerLine(_, _, n) => n
    case UnknownMarker(n) => n
    case Malformed(n) => n
    case Blank(n) => n
  }

  function Size(f: File): nat {
    if f == [] then 0 else Size(f[..|f| - 1]) + LineBytes(f[|f| - 1])
  }

  function Min(a: pos, b: pos): pos { if a <= b then a else b }

  // ---- Scanning -------------------------------------------------------------

  /** A well-formed marker and where it stands. */
  datatype Found = Found(retainedCap: pos, baselineBytes: nat, lineBytes: nat, lineIndex: nat)

  datatype Scan = Scan(
    records: seq<Record>,
    canonical: seq<Record>,
    duplicateCount: int,
    malformedCount: nat,
    validMarkers: seq<Found>,
    unknownMarkerCount: nat)

  function Records(f: File): seq<Record> {
    if f == [] then []
    else
      var n := |f| - 1;
      Records(f[..n]) + if f[n].RecordLine? then [f[n].record] else []
  }

  function Markers(f: File): seq<Found> {
    if f == [] then []
    else
      var n := |f| - 1;
      Markers(f[..n]) +
      if f[n].MarkerLine? then [Found(f[n].retainedCap, f[n].baselineBytes, f[n].markerBytes, n)] else []
  }

  function CountMalformed(f: File): nat {
    if f == [] then 0 else CountMalformed(f[..|f| - 1]) + if f[|f| - 1].Malformed? then 1 else 0
  }

  function CountUnknown(f: File): nat {
    if f == [] then 0 else CountUnknown(f[..|f| - 1]) + if f[|f| - 1].UnknownMarker? then 1 else 0
  }

  function StampSet(rs: seq<Record>): set<Stamp> {
    set r | r in rs :: r.stamp
  }

  function ScanOf(f: File): Scan {
    Scan(Records(f), Cap(Records(f), MAX_REPLAY_RECORDS), |Records(f)| - |StampSet(Records(f))|,
         CountMalformed(f), Markers(f), CountUnknown(f))
  }

  /** One pass over the lines, classifying each. */
  method ScanSidecar(f: File) returns (scan: Scan)
    ensures scan == ScanOf(f)
  {
    var records: seq<Record>, validMarkers: seq<Found> := [], [];
    var malformedCount, unknownMarkerCount := 0, 0;
    for i := 0 to |f|
      invariant records == Records(f[..i]) && validMarkers == Markers(f[..i])
      invariant malformedCount == CountMalformed(f[..i])
      invariant unknownMarkerCount == CountUnknown(f[..i])
    {
      assert f[..i + 1][..i] == f[..i];
      match f[i] {
        case Blank(_) =>
        case UnknownMarker(_) => unknownMarkerCount := unknownMarkerCount + 1;
        case MarkerLine(cap, baseline, bytes) =>
          validMarkers := validMarkers + [Found(cap, baseline, bytes, i)];
        case RecordLine(r) => records := records + [r];
        case Malformed(_) => malformedCount := malformedCount + 1;
      }
    }
    assert f[..|f|] == f;
    var canonical := CapNewestByStamp(records, MAX_REPLAY_RECORDS);
    scan := Scan(records, canonical, |records| - |StampSet(records)|,
                 malformedCount, validMarkers, unknownMarkerCount);
  }

  lemma {:induction false} RecordsConcat(a: File, b: File)
    ensures Records(a + b) == Records(a) + Records(b)
  {
    if b == [] {
      assert a + b == a;
    } else {
      RecordsConcat(a, b[..|b| - 1]);
      assert (a + b)[..|a + b| - 1] == a + b[..|b| - 1];
    }
  }

  /** The smallest cap any marker in the file was written under, at most our own. */
  function Retained(f: File): pos {
    if f == [] then MAX_REPLAY_RECORDS
    else
      var r := Retained(f[..|f| - 1]);
      if f[|f| - 1].MarkerLine? then Min(r, f[|f| - 1].retainedCap) else r
  }

  lemma {:induction false} RetainedConcat(a: File, b: File)
    ensures Retained(a) <= MAX_REPLAY_RECORDS
    ensures Retained(a + b) == Min(Retained(a), Retained(b))
  {
    if b == [] {
      assert a + b == a;
      RetainedBound(a);
    } else {
      RetainedConcat(a, b[..|b| - 1]);
      assert (a + b)[..|a + b| - 1] == a + b[..|b| - 1];
    }
  }

  lemma {:induction false} RetainedBound(f: File)
    ensures Retained(f) <= MAX_REPLAY_RECORDS
  {
    if f != [] {
      RetainedBound(f[..|f| - 1]);
    }
  }

  /** The fold over the scan's markers the rewrite starts from. */
  method RetainedCap(scan: Scan, ghost f: File) returns (cap: pos)
    requires scan == ScanOf(f)
    ensures cap == Retained(f)
  {
    cap := MAX_REPLAY_RECORDS;
    for i := 0 to |scan.validMarkers|
      invariant cap == FoldCap(scan.validMarkers[..i], MAX_REPLAY_RECORDS)
    {
      cap := Min(cap, scan.validMarkers[i].retainedCap);
      assert scan.validMarkers[..i + 1][..i] == scan.validMarkers[..i];
    }
    assert scan.validMarkers[..|scan.validMarkers|] == scan.validMarkers;
    FoldIsRetained(f);
  }

  function FoldCap(ms: seq<Found>, initial: pos): pos {
    if ms == [] then initial else Min(FoldCap(ms[..|ms| - 1], initial), ms[|ms| - 1].retainedCap)
  }

  lemma {:induction false} FoldIsRetained(f: File)
    ensures FoldCap(Markers(f), MAX_REPLAY_RECORDS) == Retained(f)
  {
    if f != [] {
      var n := |f| - 1;
      FoldIsRetained(f[..n]);
      if f[n].MarkerLine? {
        assert Markers(f)[..|Markers(f)| - 1] == Markers(f[..n]);
      } else {
        assert Markers(f) == Markers(f[..n]);
      }
    }
  }

  // ---- Trust and the canonical form -----------------------------------------

  /** The marker whose baseline can be believed: the only one, on the first line,
    * and not claiming more bytes than there are. */
  function TrustedBaselineMarker(scan: Scan, size: nat): Option<Found> {
    if |scan.validMarkers| != 1 || scan.validMarkers[0].lineIndex != 0 || scan.unknownMarkerCount > 0 then None
    else if scan.validMarkers[0].lineBytes + scan.validMarkers[0].baselineBytes <= size
    then Some(scan.validMarkers[0])
    else None
  }

  predicate NeedsCanonicalRewrite(scan: Scan, size: nat) {
    || |scan.records| != |scan.canonical|
    || scan.duplicateCount > 0
    || scan.malformedCount > 0
    || scan.unknownMarkerCount > 0
    || (|scan.validMarkers| > 0 && TrustedBaselineMarker(scan, size).None?)
  }

  function Digits(n: nat): nat { if n < 10 then 1 else 1 + Digits(n / 10) }

  /** Length of a marker line: its fixed JSON text, two numbers and a newline. */
  function MarkerBytes(cap: pos, baseline: nat): nat {
    86 + Digits(cap) + Digits(baseline)
  }

  function PowerOfTen(n: nat): nat { if n == 0 then 1 else 10 * PowerOfTen(n - 1) }

  /** As many digits as the decimal form has. */
  lemma {:induction false} DigitsAreDecimal(n: nat)
    ensures Digits(n) > 0 && n < PowerOfTen(Digits(n)) && (n > 0 ==> PowerOfTen(Digits(n) - 1) <= n)
  {
    if n >= 10 { DigitsAreDecimal(n / 10); }
  }

  function RecordLines(rs: seq<Record>): File {
    if rs == [] then [] else RecordLines(rs[..|rs| - 1]) + [RecordLine(rs[|rs| - 1])]
  }

  /** The file a build whose own cap is `cap` leaves behind when it rewrites `f`. */
  function RewrittenUnder(f: File, cap: pos): File {
    var data := RecordLines(Cap(Records(f), cap));
    var retained := FoldCap(Markers(f), cap);
    [MarkerLine(retained, Size(data), MarkerBytes(retained, Size(data)))] + data
  }

  function Rewritten(f: File): File { RewrittenUnder(f, MAX_REPLAY_RECORDS) }

  lemma MarkerAlone(m: Line)
    requires m.MarkerLine?
    ensures Records([m]) == [] && Markers([m]) == [Found(m.retainedCap, m.baselineBytes, m.markerBytes, 0)]
    ensures Retained([m]) == Min(MAX_REPLAY_RECORDS, m.retainedCap)
    ensures CountMalformed([m]) == 0 && CountUnknown([m]) == 0 && Size([m]) == m.markerBytes
  {
    assert [m][..0] == [];
  }

  /** One more record line changes the records and the size, and nothing else. */
  lemma RecordAppended(f: File, r: Record)
    ensures var g := f + [RecordLine(r)];
            && Records(g) == Records(f) + [r] && Markers(g) == Markers(f) && Retained(g) == Retained(f)
            && CountMalformed(g) == CountMalformed(f) && CountUnknown(g) == CountUnknown(f)
            && Size(g) == Size(f) + r.bytes
  {
    assert (f + [RecordLine(r)])[..|f|] == f;
  }

  lemma {:induction false} MarkerThenRecords(m: Line, rs: seq<Record>)
    requires m.MarkerLine?
    ensures var f := [m] + RecordLines(rs);
            && Records(f) == rs
            && Markers(f) == [Found(m.retainedCap, m.baselineBytes, m.markerBytes, 0)]
            && Retained(f) == Min(MAX_REPLAY_RECORDS, m.retainedCap)
            && CountMalformed(f) == 0 && CountUnknown(f) == 0
            && Size(f) == m.markerBytes + Size(RecordLines(rs))
  {
    hide Records, Markers, Retained, CountMalformed, CountUnknown, Size;
    if rs == [] {
      MarkerAlone(m);
      NoLines();
      assert [m] + RecordLines(rs) == [m];
    } else {
      var before, r := RecordLines(rs[..|rs| - 1]), rs[|rs| - 1];
      MarkerThenRecords(m, rs[..|rs| - 1]);
      RecordAppended([m] + before, r);
      RecordAppended(before, r);
      assert [m] + RecordLines(rs) == [m] + before + [RecordLine(r)];
    }
  }

  lemma NoLines()
    ensures Size([]) == 0
  {
  }

  lemma {:induction false} FoldCapBound(ms: seq<Found>, cap: pos)
    ensures FoldCap(ms, cap) == Min(cap, FoldCap(ms, cap))
    ensures Min(FoldCap(ms, cap), MAX_REPLAY_RECORDS) == Min(cap, FoldCap(ms, MAX_REPLAY_RECORDS))
  {
    if ms != [] {
      FoldCapBound(ms[..|ms| - 1], cap);
    }
  }

  /** What a rewrite leaves: the capped records, one marker, and the smaller of the two caps. */
  lemma RewriteScan(f: File, cap: pos)
    ensures Records(RewrittenUnder(f, cap)) == Cap(Records(f), cap)
    ensures Retained(RewrittenUnder(f, cap)) == Min(cap, Retained(f))
  {
    var data := Cap(Records(f), cap);
    var retained := FoldCap(Markers(f), cap);
    MarkerThenRecords(RewrittenUnder(f, cap)[0], data);
    FoldCapBound(Markers(f), cap);
    FoldIsRetained(f);
  }

  lemma {:induction false} IncreasingStamps(s: seq<Record>)
    requires StrictlyIncreasing(s)
    ensures |StampSet(s)| == |s|
  {
    if s != [] {
      var n := |s| - 1;
      IncreasingStamps(s[..n]);
      assert s == s[..n] + [s[n]];
      assert StampSet(s) == StampSet(s[..n]) + {s[n].stamp};
      forall r | r in s[..n] ensures r.stamp != s[n].stamp {
      }
    }
  }

  /** The scan of a freshly rewritten file. */
  lemma RewrittenScan(f: File)
    ensures var g := Rewritten(f); var data := Cap(Records(f), MAX_REPLAY_RECORDS);
            && Records(g) == data == Cap(data, MAX_REPLAY_RECORDS)
            && |StampSet(data)| == |data|
            && Markers(g) == [Found(Retained(f), Size(RecordLines(data)), g[0].markerBytes, 0)]
            && CountMalformed(g) == CountUnknown(g) == 0
            && Size(g) == g[0].markerBytes + Size(RecordLines(data))
  {
    var data := Cap(Records(f), MAX_REPLAY_RECORDS);
    CapIs(Records(f), MAX_REPLAY_RECORDS);
    CapOfCapped(data, MAX_REPLAY_RECORDS);
    IncreasingStamps(data);
    MarkerThenRecords(Rewritten(f)[0], data);
    FoldIsRetained(f);
  }

  /** A successful rewrite is a fixpoint: the next scan trusts the marker, asks for no
    * further rewrite, reads the same list, and rewriting again gives the same bytes. */
  lemma RewriteIsFixpoint(f: File)
    ensures var g := Rewritten(f);
            && ScanOf(g).canonical == ScanOf(g).records == ScanOf(f).canonical
            && !NeedsCanonicalRewrite(ScanOf(g), Size(g))
            && TrustedBaselineMarker(ScanOf(g), Size(g)).Some?
            && Retained(g) == Retained(f)
            && Excess(g) == 0
            && Rewritten(g) == g
  {
    RewrittenScan(f);
    RewriteScan(f, MAX_REPLAY_RECORDS);
    FoldIsRetained(f);
    FoldIsRetained(Rewritten(f));
    RetainedBound(f);
  }

  /** Bytes past the last believable baseline; the whole file when there is none. */
  function Excess(f: File): int {
    match TrustedBaselineMarker(ScanOf(f), Size(f))
    case Some(m) => Size(f) - (m.lineBytes + m.baselineBytes)
    case None => Size(f)
  }

  /** What makes activating a path rewrite it: a spent budget, or no baseline to measure from. */
  predicate SpentOrUntrusted(f: File) {
    match TrustedBaselineMarker(ScanOf(f), Size(f))
    case Some(_) => Excess(f) >= GROWTH_BUDGET_BYTES
    case None => Size(f) >= GROWTH_BUDGET_BYTES || |Markers(f)| > 0 || CountUnknown(f) > 0
  }

  /** A file that appends extend without disturbing its baseline. */
  predicate Plain(f: File) {
    || TrustedBaselineMarker(ScanOf(f), Size(f)).Some?
    || (Markers(f) == [] && CountUnknown(f) == 0)
  }

  /** Appending a record never moves the baseline, so the excess grows by that line. */
  lemma AppendGrowsExcess(f: File, r: Record)
    requires Plain(f)
    ensures Excess(f + [RecordLine(r)]) == Excess(f) + r.bytes && Plain(f + [RecordLine(r)])
  {
    var g := f + [RecordLine(r)];
    assert g[..|g| - 1] == f;
  }

  lemma RewriteResetsExcess(f: File)
    ensures Excess(Rewritten(f)) == 0 && Plain(Rewritten(f))
  {
    RewriteIsFixpoint(f);
  }

  // ---- Every mixture of appends, rewrites and merges ------------------------

  /** How a sidecar file came to be, over any number of processes and builds. */
  datatype Story =
    | Fresh
    | Append(before: Story, record: Record)
    | Noise(before: Story, line: Line)
    | Compact(before: Story, cap: pos)
    | Merge(target: Story, source: Story)

  /** The bytes on disk. */
  function FileOf(st: Story): File {
    match st
    case Fresh => []
    case Append(s, r) => FileOf(s) + [RecordLine(r)]
    case Noise(s, line) =>
      if line.RecordLine? || line.MarkerLine? then FileOf(s) else FileOf(s) + [line]
    case Compact(s, cap) => RewrittenUnder(FileOf(s), cap)
    case Merge(to, from) => FileOf(to) + FileOf(from)
  }

  /** Every record ever appended, compaction notwithstanding. */
  function HistoryOf(st: Story): seq<Record> {
    match st
    case Fresh => []
    case Append(s, r) => HistoryOf(s) + [r]
    case Noise(s, _) => HistoryOf(s)
    case Compact(s, _) => HistoryOf(s)
    case Merge(to, from) => HistoryOf(to) + HistoryOf(from)
  }

  /** The smallest cap anything in the story compacted under. */
  function SmallestCap(st: Story): pos {
    match st
    case Fresh => MAX_REPLAY_RECORDS
    case Append(s, _) => SmallestCap(s)
    case Noise(s, _) => SmallestCap(s)
    case Compact(s, cap) => Min(cap, SmallestCap(s))
    case Merge(to, from) => Min(SmallestCap(to), SmallestCap(from))
  }

  ghost predicate Agree(a: seq<Record>, b: seq<Record>, n: nat) {
    Top(Latest(a), n) == Top(Latest(b), n)
  }

  lemma AgreeConcat(a': seq<Record>, a: seq<Record>, b': seq<Record>, b: seq<Record>, n: nat)
    requires Agree(a', a, n) && Agree(b', b, n)
    ensures Agree(a' + b', a + b, n)
  {
    LatestConcat(a', b');
    LatestConcat(a, b);
    TopCongruence(Latest(a'), Latest(a), Latest(b'), Latest(b), n);
  }

  lemma AgreeLess(a: seq<Record>, b: seq<Record>, k: nat, n: nat)
    requires Agree(a, b, k) && n <= k
    ensures Agree(a, b, n)
  {
    TopOfTop(Latest(a), k, n);
    TopOfTop(Latest(b), k, n);
  }

  lemma AgreeCap(rs: seq<Record>, k: nat, n: nat)
    requires n <= k
    ensures Agree(Cap(rs, k), rs, n)
  {
    CapIs(rs, k);
    TopOfTop(Latest(rs), k, n);
  }

  /** The markers on disk record exactly the smallest cap of the whole story. */
  lemma {:induction false} RetainedIsSmallestCap(st: Story)
    ensures Retained(FileOf(st)) == SmallestCap(st) <= MAX_REPLAY_RECORDS
  {
    match st
    case Fresh =>
    case Append(s, r) =>
      RetainedIsSmallestCap(s);
      RetainedConcat(FileOf(s), [RecordLine(r)]);
      assert Retained([RecordLine(r)]) == MAX_REPLAY_RECORDS;
    case Noise(s, line) =>
      RetainedIsSmallestCap(s);
      RetainedConcat(FileOf(s), [line]);
      assert !line.MarkerLine? ==> Retained([line]) == MAX_REPLAY_RECORDS;
    case Compact(s, cap) =>
      RetainedIsSmallestCap(s);
      RewriteScan(FileOf(s), cap);
    case Merge(to, from) =>
      RetainedIsSmallestCap(to);
      RetainedIsSmallestCap(from);
      RetainedConcat(FileOf(to), FileOf(from));
  }

  lemma {:induction false} AgreesWithHistory(st: Story)
    ensures Agree(Records(FileOf(st)), HistoryOf(st), SmallestCap(st))
  {
    match st
    case Fresh =>
    case Append(s, r) =>
      AgreesWithHistory(s);
      RecordsConcat(FileOf(s), [RecordLine(r)]);
      assert Records([RecordLine(r)]) == [r];
      AgreeConcat(Records(FileOf(s)), HistoryOf(s), [r], [r], SmallestCap(s));
    case Noise(s, line) =>
      AgreesWithHistory(s);
      if FileOf(st) != FileOf(s) {
        RecordsConcat(FileOf(s), [line]);
        assert Records([line]) == [];
        assert Records(FileOf(st)) == Records(FileOf(s));
      }
    case Compact(s, cap) =>
      AgreesWithHistory(s);
      RewriteScan(FileOf(s), cap);
      AgreeCap(Records(FileOf(s)), cap, SmallestCap(st));
      AgreeLess(Records(FileOf(s)), HistoryOf(s), SmallestCap(s), SmallestCap(st));
    case Merge(to, from) =>
      AgreesWithHistory(to);
      AgreesWithHistory(from);
      AgreeLess(Records(FileOf(to)), HistoryOf(to), SmallestCap(to), SmallestCap(st));
      AgreeLess(Records(FileOf(from)), HistoryOf(from), SmallestCap(from), SmallestCap(st));
      RecordsConcat(FileOf(to), FileOf(from));
      AgreeConcat(Records(FileOf(to)), HistoryOf(to), Records(FileOf(from)), HistoryOf(from), SmallestCap(st));
  }

  /** Main result: whatever was compacted under whatever caps and merged in whatever
    * order, with `r` the retained cap the markers report, the newest `r` records of
    * the file are the newest `r` of everything ever appended. */
  lemma NewestRetainedAreExact(st: Story)
    ensures var r := Retained(FileOf(st));
            Cap(Records(FileOf(st)), r) == Cap(HistoryOf(st), r)
  {
    RetainedIsSmallestCap(st);
    AgreesWithHistory(st);
    SameTopSameCap(Records(FileOf(st)), HistoryOf(st), SmallestCap(st));
  }

  /** When no marker reports an incomplete history, a scan reads exactly the newest 200
    * of the uncompacted log. */
  lemma ScanReadsUncompactedLog(st: Story)
    requires Retained(FileOf(st)) == MAX_REPLAY_RECORDS
    ensures ScanOf(FileOf(st)).canonical == Cap(HistoryOf(st), MAX_REPLAY_RECORDS)
  {
    NewestRetainedAreExact(st);
  }

  /** Every rewrite in the story was under this build's own cap. */
  predicate OneBuild(st: Story) {
    match st
    case Fresh => true
    case Append(s, _) => OneBuild(s)
    case Noise(s, _) => OneBuild(s)
    case Compact(s, cap) => cap == MAX_REPLAY_RECORDS && OneBuild(s)
    case Merge(to, from) => OneBuild(to) && OneBuild(from)
  }

  lemma {:induction false} OneBuildKeepsTheCap(st: Story)
    requires OneBuild(st)
    ensures SmallestCap(st) == MAX_REPLAY_RECORDS
  {
    match st
    case Fresh =>
    case Append(s, _) => OneBuildKeepsTheCap(s);
    case Noise(s, _) => OneBuildKeepsTheCap(s);
    case Compact(s, _) => OneBuildKeepsTheCap(s);
    case Merge(to, from) =>
      OneBuildKeepsTheCap(to);
      OneBuildKeepsTheCap(from);
  }

  /** The file refines an uncompacted log: over any interleaving of appends, terminated
    * garbage lines, rewrites and merges by this build, a scan reads the newest 200 of
    * everything. */
  lemma OneBuildReadsTheWholeLog(st: Story)
    requires OneBuild(st)
    ensures ScanOf(FileOf(st)).canonical == Cap(HistoryOf(st), MAX_REPLAY_RECORDS)
  {
    OneBuildKeepsTheCap(st);
    RetainedIsSmallestCap(st);
    ScanReadsUncompactedLog(st);
  }

  ghost predicate Within(part: Story, st: Story) {
    part == st ||
    match st
    case Fresh => false
    case Append(s, _) => Within(part, s)
    case Noise(s, _) => Within(part, s)
    case Compact(s, _) => Within(part, s)
    case Merge(to, from) => Within(part, to) || Within(part, from)
  }

  /** The reported cap never recovers: no append, rewrite or merge makes it larger
    * than it was for any file that went into this one. */
  lemma {:induction false} RetainedNeverGrows(part: Story, st: Story)
    requires Within(part, st)
    ensures Retained(FileOf(st)) <= Retained(FileOf(part))
  {
    RetainedIsSmallestCap(st);
    RetainedIsSmallestCap(part);
    SmallestCapNeverGrows(part, st);
  }

  lemma {:induction false} SmallestCapNeverGrows(part: Story, st: Story)
    requires Within(part, st)
    ensures SmallestCap(st) <= SmallestCap(part)
  {
    if part != st {
      match st
      case Append(s, _) => SmallestCapNeverGrows(part, s);
      case Noise(s, _) => SmallestCapNeverGrows(part, s);
      case Compact(s, _) => SmallestCapNeverGrows(part, s);
      case Merge(to, from) =>
        if Within(part, to) { SmallestCapNeverGrows(part, to); } else { SmallestCapNeverGrows(part, from); }
    }
  }

  /** A conversation whose second half another build had compacted to one record. */
  function StaleStory(superseded: Record, final: Record, later: Record): Story {
    Merge(Append(Fresh, superseded), Compact(Append(Append(Fresh, final), later), 1))
  }

  /** Past the retained cap the list is not merely short: merging with a file that
    * another build compacted can show a message the history had already replaced. */
  lemma BeyondRetainedCanBeStale(superseded: Record, final: Record, later: Record)
    requires superseded.stamp == final.stamp && superseded != final && Less(final.stamp, later.stamp)
    ensures var st := StaleStory(superseded, final, later);
            && Retained(FileOf(st)) == 1
            && HistoryOf(st) == [superseded, final, later]
            && ScanOf(FileOf(st)).canonical == [superseded, later]
            && Cap(HistoryOf(st), MAX_REPLAY_RECORDS) == [final, later]
  {
    hide FileOf, HistoryOf, Records, Retained, ScanOf, Cap, StaleStory;
    var st := StaleStory(superseded, final, later);
    StaleRetained(superseded, final, later);
    StaleHistory(superseded, final, later);
    StaleRecords(superseded, final, later);
    StaleScan(FileOf(st), superseded, later);
    CapOfTriple(superseded, final, later);
  }

  lemma StaleRetained(superseded: Record, final: Record, later: Record)
    ensures Retained(FileOf(StaleStory(superseded, final, later))) == 1
  {
    hide FileOf, Retained;
    RetainedIsSmallestCap(StaleStory(superseded, final, later));
  }

  lemma StaleHistory(superseded: Record, final: Record, later: Record)
    ensures HistoryOf(StaleStory(superseded, final, later)) == [superseded, final, later]
    ensures [superseded, final, later] == [superseded, final] + [later]
  {
    var single, pair := Append(Fresh, superseded), Append(Append(Fresh, final), later);
    assert HistoryOf(single) == [] + [superseded] == [superseded];
    assert HistoryOf(pair) == [] + [final] + [later];
    assert [superseded] + ([] + [final] + [later]) == [superseded, final, later];
  }

  lemma StaleScan(f: File, superseded: Record, later: Record)
    requires Records(f) == [superseded, later] && Less(superseded.stamp, later.stamp)
    ensures ScanOf(f).canonical == [superseded, later]
  {
    hide Records, Cap;
    CapOfCapped([superseded, later], MAX_REPLAY_RECORDS);
  }

  lemma AppendedRecords(st: Story, r: Record)
    ensures Records(FileOf(Append(st, r))) == Records(FileOf(st)) + [r]
  {
    RecordsConcat(FileOf(st), [RecordLine(r)]);
  }

  lemma StaleRecords(superseded: Record, final: Record, later: Record)
    requires Less(final.stamp, later.stamp)
    ensures Records(FileOf(StaleStory(superseded, final, later))) == [superseded, later]
  {
    hide Records, RewrittenUnder;
    var st := StaleStory(superseded, final, later);
    AppendedRecords(Fresh, superseded);
    AppendedRecords(Fresh, final);
    AppendedRecords(Append(Fresh, final), later);
    NoRecords();
    CompactedPair(FileOf(st.source.before), final, later);
    RecordsConcat(FileOf(st.target), FileOf(st.source));
  }

  lemma NoRecords()
    ensures Records(FileOf(Fresh)) == []
  {
  }

  lemma CompactedPair(f: File, older: Record, newer: Record)
    requires Records(f) == [older] + [newer] && Less(older.stamp, newer.stamp)
    ensures Records(RewrittenUnder(f, 1)) == [newer]
  {
    CapOfCapped(Records(f), 2);
    RewriteScan(f, 1);
  }

  lemma CapOfTriple(superseded: Record, final: Record, later: Record)
    requires superseded.stamp == final.stamp && Less(final.stamp, later.stamp)
    ensures Cap([superseded, final] + [later], MAX_REPLAY_RECORDS) == [final, later]
  {
    var all := [superseded, final] + [later];
    assert all[..2] == [superseded] + [final];
    LatestSnoc([superseded, final], later);
    LatestSnoc([superseded], final);
    LatestSnoc([final], later);
    assert [final] + [later] == [final, later];
    assert Latest(all) == Latest([final, later]);
    SameTopSameCap(all, [final, later], MAX_REPLAY_RECORDS);
    CapOfCapped([final, later], MAX_REPLAY_RECORDS);
  }
}

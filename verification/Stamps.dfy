/** The stamp order of the inter-agent sidecar and the algebra of
  * "newest `n` by stamp": last writer wins on an equal stamp, then sort, then cut.
  * Maps stand for deduplicated record lists, so the algebra is about map union. */
module Stamps {
  import opened Wrappers

  /** The server's ordering tuple `[us, seq]`. */
  datatype Stamp = Stamp(us: int, ordinal: int)

  /** One recorded message; `bytes` is the length of its serialized line, newline included. */
  datatype Record = Record(stamp: Stamp, envelope: string, bytes: nat)

  predicate Less(a: Stamp, b: Stamp) {
    a.us < b.us || (a.us == b.us && a.ordinal < b.ordinal)
  }

  // ---- Deduplication --------------------------------------------------------

  /** What a map keyed by stamp holds after `set` has been called for each record in turn. */
  function Latest(rs: seq<Record>): map<Stamp, Record> {
    if rs == [] then map[]
    else Latest(rs[..|rs| - 1])[rs[|rs| - 1].stamp := rs[|rs| - 1]]
  }

  /** Every entry is a record of the list, filed under its own stamp. */
  lemma {:induction false} LatestEntry(rs: seq<Record>, s: Stamp)
    requires s in Latest(rs)
    ensures Latest(rs)[s].stamp == s && Latest(rs)[s] in rs
  {
    var n := |rs| - 1;
    if s != rs[n].stamp {
      LatestEntry(rs[..n], s);
    }
  }

  lemma {:induction false} LatestHas(rs: seq<Record>, i: nat)
    requires i < |rs|
    ensures rs[i].stamp in Latest(rs)
  {
    if i < |rs| - 1 {
      LatestHas(rs[..|rs| - 1], i);
    }
  }

  lemma {:induction false} LatestConcat(a: seq<Record>, b: seq<Record>)
    ensures Latest(a + b) == Latest(a) + Latest(b)
  {
    if b == [] {
      assert a + b == a;
    } else {
      var n := |b| - 1;
      LatestConcat(a, b[..n]);
      assert (a + b)[..|a + b| - 1] == a + b[..n];
    }
  }

  // ---- The newest n ---------------------------------------------------------

  function Newer(m: map<Stamp, Record>, s: Stamp): set<Stamp> {
    set t | t in m.Keys && Less(s, t)
  }

  /** The entries with fewer than `n` newer ones: the newest `n` stamps. */
  function Top(m: map<Stamp, Record>, n: nat): (top: map<Stamp, Record>)
    ensures forall s :: s in top <==> s in m && |Newer(m, s)| < n
    ensures forall s :: s in top ==> top[s] == m[s]
  {
    map s | s in m && |Newer(m, s)| < n :: m[s]
  }

  ghost function MaxStamp(ks: set<Stamp>): (s: Stamp)
    requires ks != {}
    ensures s in ks && forall t :: t in ks && t != s ==> Less(t, s)
  {
    var x :| x in ks;
    if ks == {x} then x
    else
      var y := MaxStamp(ks - {x});
      assert forall t :: t in ks && t != x && t != y ==> t in ks - {x};
      if Less(x, y) then y else x
  }

  /** An entry the cut dropped still sees `n` newer ones after the cut. */
  lemma DroppedHasFullTop(m: map<Stamp, Record>, n: nat, s: Stamp)
    requires s in m && s !in Top(m, n)
    ensures |Newer(Top(m, n), s)| >= n
  {
    assert s in m.Keys - Top(m, n).Keys;
    var last := MaxStamp(m.Keys - Top(m, n).Keys);
    assert last == s || Less(s, last);
    forall t | t in Newer(m, last) ensures t in Top(m, n) {
      assert t !in m.Keys - Top(m, n).Keys;
    }
    assert Newer(m, last) == Newer(Top(m, n), last);
    SubsetSize(Newer(Top(m, n), last), Newer(Top(m, n), s));
  }

  /** Whether `s` survives the cut depends only on the newest `n` of each side of a union. */
  lemma SurvivesUnion(x: map<Stamp, Record>, y: map<Stamp, Record>, n: nat, s: Stamp)
    requires s in x || s in y
    ensures var cut := Top(x, n) + Top(y, n);
            |Newer(x + y, s)| < n <==> s in cut && |Newer(cut, s)| < n
  {
    var cut := Top(x, n) + Top(y, n);
    SubsetSize(Newer(cut, s), Newer(x + y, s));
    if |Newer(x + y, s)| < n {
      SubsetSize(Newer(x, s), Newer(x + y, s));
      SubsetSize(Newer(y, s), Newer(x + y, s));
    } else if s in cut && |Newer(cut, s)| < n {
      if t :| t in Newer(x + y, s) && t !in cut {
        var side := if t in x then x else y;
        DroppedHasFullTop(side, n, t);
        SubsetSize(Newer(Top(side, n), t), Newer(cut, s));
        assert false;
      }
      assert Newer(x + y, s) <= Newer(cut, s);
      SubsetSize(Newer(x + y, s), Newer(cut, s));
      assert false;
    }
  }

  /** Cutting both sides of a union first loses nothing the final cut would keep. */
  lemma TopOfUnion(x: map<Stamp, Record>, y: map<Stamp, Record>, n: nat)
    ensures Top(Top(x, n) + Top(y, n), n) == Top(x + y, n)
  {
    var cut := Top(x, n) + Top(y, n);
    forall s | s in x || s in y
      ensures s in Top(cut, n) <==> s in Top(x + y, n)
      ensures s in Top(cut, n) ==> Top(cut, n)[s] == Top(x + y, n)[s]
    {
      SurvivesUnion(x, y, n, s);
      if s in Top(x + y, n) && s in y {
        SubsetSize(Newer(y, s), Newer(x + y, s));
      }
    }
  }

  /** Cutting to `k` first never changes who is among the newest `n <= k`. */
  lemma SurvivesCut(m: map<Stamp, Record>, k: nat, n: nat, s: Stamp)
    requires n <= k && s in Top(m, k) && |Newer(Top(m, k), s)| < n
    ensures |Newer(m, s)| < n
  {
    if t :| t in Newer(m, s) && t !in Top(m, k) {
      DroppedHasFullTop(m, k, t);
      SubsetSize(Newer(Top(m, k), t), Newer(Top(m, k), s));
      assert false;
    }
    assert Newer(m, s) == Newer(Top(m, k), s);
  }

  lemma TopOfTop(m: map<Stamp, Record>, k: nat, n: nat)
    requires n <= k
    ensures Top(Top(m, k), n) == Top(m, n)
  {
    forall s | s in Top(m, n) ensures s in Top(Top(m, k), n) {
      SubsetSize(Newer(Top(m, k), s), Newer(m, s));
    }
    forall s | s in Top(Top(m, k), n) ensures s in Top(m, n) {
      SurvivesCut(m, k, n, s);
    }
  }

  /** Two logs that agree on their newest `n` still agree after each is extended by
    * another pair that agrees on its newest `n`. */
  lemma TopCongruence(x': map<Stamp, Record>, x: map<Stamp, Record>,
                      y': map<Stamp, Record>, y: map<Stamp, Record>, n: nat)
    requires Top(x', n) == Top(x, n) && Top(y', n) == Top(y, n)
    ensures Top(x' + y', n) == Top(x + y, n)
  {
    TopOfUnion(x', y', n);
    TopOfUnion(x, y, n);
  }

  // ---- Sorting --------------------------------------------------------------

  predicate StrictlyIncreasing(s: seq<Record>) {
    forall i, j :: 0 <= i < j < |s| ==> Less(s[i].stamp, s[j].stamp)
  }

  lemma LatestSnoc(s: seq<Record>, r: Record)
    ensures Latest(s + [r]) == Latest(s)[r.stamp := r]
  {
    assert (s + [r])[..|s|] == s;
  }

  predicate AllBelow(m: map<Stamp, Record>, s: Stamp) {
    forall t :: t in m ==> Less(t, s)
  }

  lemma IncreasingSnoc(s: seq<Record>, r: Record)
    requires StrictlyIncreasing(s)
    requires AllBelow(Latest(s), r.stamp)
    ensures StrictlyIncreasing(s + [r])
  {
    forall i | 0 <= i < |s| ensures Less(s[i].stamp, r.stamp) {
      LatestHas(s, i);
    }
  }

  lemma LastIsNewest(s: seq<Record>)
    requires StrictlyIncreasing(s) && s != []
    ensures AllBelow(Latest(s[..|s| - 1]), s[|s| - 1].stamp)
  {
    var init := s[..|s| - 1];
    forall t | t in Latest(init) ensures Less(t, s[|s| - 1].stamp) {
      LatestEntry(init, t);
    }
  }

  /** Puts `r` in its place, replacing a record with the same stamp. */
  function Insert(s: seq<Record>, r: Record): seq<Record> {
    if s == [] then [r]
    else
      var n := |s| - 1;
      if Less(s[n].stamp, r.stamp) then s + [r]
      else if s[n].stamp == r.stamp then s[..n] + [r]
      else Insert(s[..n], r) + [s[n]]
  }

  lemma {:induction false} InsertCorrect(s: seq<Record>, r: Record)
    requires StrictlyIncreasing(s)
    ensures StrictlyIncreasing(Insert(s, r))
    ensures Latest(Insert(s, r)) == Latest(s)[r.stamp := r]
  {
    hide Latest, AllBelow;
    if s == [] {
      NothingBelow(r.stamp);
      ExtendSorted([], r);
      assert [] + [r] == [r];
    } else {
      var n := |s| - 1;
      LastIsNewest(s);
      SplitLast(s);
      if Less(s[n].stamp, r.stamp) {
        AllBelowLast(s, r.stamp);
        ExtendSorted(s, r);
      } else if s[n].stamp == r.stamp {
        ExtendSorted(s[..n], r);
      } else {
        InsertCorrect(s[..n], r);
        BelowWith(Latest(s[..n]), r, s[n].stamp);
        ExtendSorted(Insert(s[..n], r), s[n]);
      }
    }
  }

  lemma NothingBelow(s: Stamp)
    ensures AllBelow(Latest([]), s)
  {
  }

  lemma SplitLast(s: seq<Record>)
    requires s != []
    ensures Latest(s) == Latest(s[..|s| - 1])[s[|s| - 1].stamp := s[|s| - 1]]
  {
    assert s == s[..|s| - 1] + [s[|s| - 1]];
    LatestSnoc(s[..|s| - 1], s[|s| - 1]);
  }

  lemma AllBelowLast(s: seq<Record>, stamp: Stamp)
    requires s != [] && AllBelow(Latest(s[..|s| - 1]), s[|s| - 1].stamp) && Less(s[|s| - 1].stamp, stamp)
    ensures AllBelow(Latest(s), stamp)
  {
    hide Latest;
    SplitLast(s);
  }

  lemma BelowWith(m: map<Stamp, Record>, r: Record, stamp: Stamp)
    requires AllBelow(m, stamp) && Less(r.stamp, stamp)
    ensures AllBelow(m[r.stamp := r], stamp)
    ensures forall x: Record :: x.stamp == stamp ==> m[r.stamp := r][stamp := x] == m[stamp := x][r.stamp := r]
  {
  }

  lemma ExtendSorted(s: seq<Record>, r: Record)
    requires StrictlyIncreasing(s) && AllBelow(Latest(s), r.stamp)
    ensures StrictlyIncreasing(s + [r])
    ensures Latest(s + [r]) == Latest(s)[r.stamp := r]
  {
    LatestSnoc(s, r);
    IncreasingSnoc(s, r);
  }

  /** Deduplicated and sorted: the whole log in canonical form. */
  function Canon(rs: seq<Record>): seq<Record> {
    if rs == [] then [] else Insert(Canon(rs[..|rs| - 1]), rs[|rs| - 1])
  }

  lemma {:induction false} CanonCorrect(rs: seq<Record>)
    ensures StrictlyIncreasing(Canon(rs))
    ensures Latest(Canon(rs)) == Latest(rs)
  {
    if rs != [] {
      CanonCorrect(rs[..|rs| - 1]);
      InsertCorrect(Canon(rs[..|rs| - 1]), rs[|rs| - 1]);
    }
  }

  /** A sorted list is determined by its entries: sorting has one answer. */
  lemma {:induction false} SortedUnique(s: seq<Record>, t: seq<Record>)
    requires StrictlyIncreasing(s) && StrictlyIncreasing(t)
    requires Latest(s) == Latest(t)
    ensures s == t
  {
    if s != [] && t != [] {
      var a, b := s[|s| - 1], t[|t| - 1];
      LastIsNewest(s);
      LastIsNewest(t);
      assert a.stamp in Latest(t) && b.stamp in Latest(s);
      assert a == b;
      var s', t' := Latest(s[..|s| - 1]), Latest(t[..|t| - 1]);
      assert s' == t' by {
        assert s'[a.stamp := a] == t'[a.stamp := a];
        assert a.stamp !in s' && a.stamp !in t';
        assert s'.Keys == Latest(s).Keys - {a.stamp};
        assert t'.Keys == Latest(t).Keys - {a.stamp};
        forall k | k in s' ensures s'[k] == t'[k] {
          assert Latest(s)[k] == s'[k] && Latest(t)[k] == t'[k];
        }
      }
      SortedUnique(s[..|s| - 1], t[..|t| - 1]);
    } else if s != [] {
      LatestHas(s, |s| - 1);
    } else if t != [] {
      LatestHas(t, |t| - 1);
    }
  }

  // ---- The cap itself -------------------------------------------------------

  /** The newest `max` records, deduplicated, oldest first. */
  function Cap(rs: seq<Record>, max: nat): seq<Record> {
    Tail(Canon(rs), max)
  }

  function Tail(s: seq<Record>, max: nat): seq<Record> {
    if |s| > max then s[|s| - max..] else s
  }

  /** In a sorted list the `i`-th record has exactly those after it newer. */
  lemma {:induction false} Rank(s: seq<Record>, i: nat)
    requires StrictlyIncreasing(s) && i < |s|
    ensures s[i].stamp in Latest(s) && Latest(s)[s[i].stamp] == s[i]
    ensures |Newer(Latest(s), s[i].stamp)| == |s| - 1 - i
  {
    var n := |s| - 1;
    var init := s[..n];
    LastIsNewest(s);
    if i == n {
      assert Newer(Latest(s), s[n].stamp) == {};
    } else {
      Rank(init, i);
      assert Newer(Latest(s), s[i].stamp) == Newer(Latest(init), s[i].stamp) + {s[n].stamp};
    }
  }

  lemma SortedTail(s: seq<Record>, max: nat)
    requires StrictlyIncreasing(s)
    ensures StrictlyIncreasing(Tail(s, max))
    ensures Latest(Tail(s, max)) == Top(Latest(s), max)
  {
    hide Latest, Newer, Top;
    var tail := Tail(s, max);
    forall k ensures k in Latest(tail) <==> k in Top(Latest(s), max)
             ensures k in Latest(tail) ==> Latest(tail)[k] == Top(Latest(s), max)[k]
    {
      if k in Latest(tail) { TailIsTop(s, max, k); }
      if k in Top(Latest(s), max) { TopIsTail(s, max, k); }
    }
  }

  lemma TopEntry(m: map<Stamp, Record>, max: nat, k: Stamp)
    ensures k in Top(m, max) <==> k in m && |Newer(m, k)| < max
    ensures k in Top(m, max) ==> Top(m, max)[k] == m[k]
  {
  }

  lemma TailIsTop(s: seq<Record>, max: nat, k: Stamp)
    requires StrictlyIncreasing(s) && k in Latest(Tail(s, max))
    ensures k in Top(Latest(s), max) && Latest(Tail(s, max))[k] == Top(Latest(s), max)[k]
  {
    hide Latest, Newer, Top;
    var tail := Tail(s, max);
    var off := |s| - |tail|;
    LatestEntry(tail, k);
    var i :| 0 <= i < |tail| && tail[i] == Latest(tail)[k];
    Rank(s, off + i);
    TopEntry(Latest(s), max, k);
  }

  lemma TopIsTail(s: seq<Record>, max: nat, k: Stamp)
    requires StrictlyIncreasing(s) && k in Top(Latest(s), max)
    ensures k in Latest(Tail(s, max))
  {
    hide Latest, Newer, Top;
    var tail := Tail(s, max);
    var off := |s| - |tail|;
    TopEntry(Latest(s), max, k);
    LatestEntry(s, k);
    var i :| 0 <= i < |s| && s[i] == Latest(s)[k];
    Rank(s, i);
    assert tail[i - off] == s[i];
    LatestHas(tail, i - off);
  }

  /** What a cap is, independently of how it is computed. */
  lemma CapIs(rs: seq<Record>, max: nat)
    ensures StrictlyIncreasing(Cap(rs, max))
    ensures Latest(Cap(rs, max)) == Top(Latest(rs), max)
    ensures |Cap(rs, max)| <= max
  {
    CanonCorrect(rs);
    SortedTail(Canon(rs), max);
  }

  lemma SameTopSameCap(a: seq<Record>, b: seq<Record>, max: nat)
    requires Top(Latest(a), max) == Top(Latest(b), max)
    ensures Cap(a, max) == Cap(b, max)
  {
    CapIs(a, max);
    CapIs(b, max);
    SortedUnique(Cap(a, max), Cap(b, max));
  }

  /** A cap only shows records of the log, each the last written under its stamp. */
  lemma CapEntry(rs: seq<Record>, max: nat, r: Record)
    requires r in Cap(rs, max)
    ensures r.stamp in Latest(rs) && Latest(rs)[r.stamp] == r
  {
    CapIs(rs, max);
    var i :| 0 <= i < |Cap(rs, max)| && Cap(rs, max)[i] == r;
    Rank(Cap(rs, max), i);
  }

  /** Compacting a prefix of the log is invisible to every later cap. */
  lemma CapAbsorbsCap(a: seq<Record>, b: seq<Record>, max: nat)
    ensures Cap(Cap(a, max) + b, max) == Cap(a + b, max)
  {
    CapIs(a, max);
    LatestConcat(a, b);
    LatestConcat(Cap(a, max), b);
    TopOfTop(Latest(a), max, max);
    TopCongruence(Top(Latest(a), max), Latest(a), Latest(b), Latest(b), max);
    SameTopSameCap(Cap(a, max) + b, a + b, max);
  }

  /** Capping a list that is already sorted, duplicate-free and short enough changes nothing. */
  lemma CapOfCapped(s: seq<Record>, max: nat)
    requires StrictlyIncreasing(s) && |s| <= max
    ensures Cap(s, max) == Canon(s) == s
  {
    CanonCorrect(s);
    SortedUnique(Canon(s), s);
  }

  /** The last record written under a stamp is the only one a cap can show. */
  lemma LastWriterWins(a: seq<Record>, r: Record, b: seq<Record>, max: nat)
    requires r.stamp !in Latest(b)
    ensures forall q :: q in Cap(a + [r] + b, max) && q.stamp == r.stamp ==> q == r
  {
    var all := a + [r] + b;
    LatestConcat(a + [r], b);
    LatestSnoc(a, r);
    forall q | q in Cap(all, max) && q.stamp == r.stamp ensures q == r {
      CapEntry(all, max, q);
    }
  }

  // ---- The code's own loop --------------------------------------------------

  /** Collects by stamp, sorts the survivors, keeps the last `max`. */
  method CapNewestByStamp(records: seq<Record>, max: nat) returns (out: seq<Record>)
    ensures out == Cap(records, max)
  {
    var byStamp: map<Stamp, Record> := map[];
    for i := 0 to |records|
      invariant byStamp == Latest(records[..i])
    {
      byStamp := byStamp[records[i].stamp := records[i]];
      LatestSnoc(records[..i], records[i]);
      assert records[..i + 1] == records[..i] + [records[i]];
    }
    assert records[..|records|] == records;
    var sorted := SortEntries(byStamp, records);
    CanonCorrect(records);
    SortedUnique(sorted, Canon(records));
    out := if |sorted| > max then sorted[|sorted| - max..] else sorted;
  }

  /** The map's values in stamp order, whatever order they are visited in. */
  method SortEntries(byStamp: map<Stamp, Record>, ghost records: seq<Record>) returns (sorted: seq<Record>)
    requires byStamp == Latest(records)
    ensures StrictlyIncreasing(sorted) && Latest(sorted) == byStamp
  {
    sorted := [];
    var todo := byStamp.Keys;
    while todo != {}
      invariant todo <= byStamp.Keys
      invariant StrictlyIncreasing(sorted)
      invariant Latest(sorted) == byStamp - todo
      decreases |todo|
    {
      var s :| s in todo;
      LatestEntry(records, s);
      InsertCorrect(sorted, byStamp[s]);
      assert (byStamp - todo)[s := byStamp[s]] == byStamp - (todo - {s});
      sorted := Insert(sorted, byStamp[s]);
      todo := todo - {s};
    }
  }
}

/** The sidecar object: which file appends go to, when it compacts, and what binding a
  * session moves across. The disk is a map from path to file; every method ends at the
  * step of SidecarRuns, where runs of them are compared with an uncompacted log. */
module IaSidecarModel {
  import opened Wrappers
  import opened Stamps
  import opened SidecarFile
  import opened SidecarRuns

  class IaSidecar {
    var files: map<string, File>
    var path: string
    var boundSession: Option<string>
    var growthBytes: int

    function View(): Sidecar
      reads this
    {
      Sidecar(files, path, boundSession, growthBytes)
    }

    /** Starts on the pending journal; journals of earlier generations are dropped. */
    constructor (pendingPath: string, disk: map<string, File>, orphans: set<string>, rewriteOk: bool)
      ensures View() == Start(Sidecar(disk, pendingPath, None, 0), pendingPath, orphans, rewriteOk)
    {
      files := disk - (orphans - {pendingPath});
      path, boundSession, growthBytes := pendingPath, None, 0;
      new;
      ActivatePath(rewriteOk);
    }

    /** Replaces the current file by its canonical form, or leaves it alone. */
    method Rewrite(scan: Scan, rewriteOk: bool)
      requires path in files && scan == ScanOf(files[path])
      modifies this`files, this`growthBytes
      ensures View() == SidecarRuns.Rewrite(old(View()), rewriteOk)
    {
      if rewriteOk {
        var lines := CanonicalLines(scan, files[path]);
        files := files[path := lines];
      }
      growthBytes := 0;
    }

    /** The canonical form: one marker, then the capped records. */
    method CanonicalLines(scan: Scan, ghost file: File) returns (lines: File)
      requires scan == ScanOf(file)
      ensures lines == Rewritten(file)
    {
      var cap := RetainedCap(scan, file);
      FoldIsRetained(file);
      var data := RecordLines(scan.canonical);
      lines := [MarkerLine(cap, Size(data), MarkerBytes(cap, Size(data)))] + data;
    }

    /** Re-measures the current file and rewrites it when its baseline cannot be
      * trusted or its growth is spent. */
    method ActivatePath(rewriteOk: bool)
      modifies this`files, this`growthBytes
      ensures View() == Activate(old(View()), rewriteOk)
    {
      hide Rewritten, Size;
      if path !in files {
        growthBytes := 0;
        return;
      }
      var size := Size(files[path]);
      var scan := ScanSidecar(files[path]);
      var marker := TrustedBaselineMarker(scan, size);
      if marker.Some? {
        growthBytes := size - (marker.value.lineBytes + marker.value.baselineBytes);
        if growthBytes >= GROWTH_BUDGET_BYTES {
          Rewrite(scan, rewriteOk);
        }
        return;
      }
      growthBytes := size;
      if size >= GROWTH_BUDGET_BYTES || |scan.validMarkers| > 0 || scan.unknownMarkerCount > 0 {
        Rewrite(scan, rewriteOk);
      }
    }

    method CompactCurrent(rewriteOk: bool)
      modifies this`files, this`growthBytes
      ensures View() == SidecarRuns.CompactCurrent(old(View()), rewriteOk)
    {
      if path !in files {
        growthBytes := 0;
        return;
      }
      var scan := ScanSidecar(files[path]);
      Rewrite(scan, rewriteOk);
    }

    /** Records one message. A write that fails outright leaves everything as it was. */
    method Append(record: Record, written: bool, rewriteOk: bool)
      modifies this`files, this`growthBytes
      ensures View() == AppendTo(old(View()), record, written, rewriteOk)
    {
      if !written { return; }
      files := files[path := (if path in files then files[path] else []) + [RecordLine(record)]];
      growthBytes := growthBytes + record.bytes;
      assert View() == Write(old(View()), record);
      if growthBytes >= GROWTH_BUDGET_BYTES {
        CompactCurrent(rewriteOk);
      }
    }

    /** Points the sidecar at a session's file and carries everything recorded so far
      * across. `target` is None while the transcript directory cannot be resolved. */
    method Bind(sessionId: string, wellFormed: bool, target: Option<string>,
                outcome: MoveOutcome, rewriteOk: bool)
      modifies this
      ensures View() == SidecarRuns.Bind(old(View()), sessionId, wellFormed, target, outcome, rewriteOk)
    {
      hide Activate, SidecarRuns.CompactCurrent, MoveFile;
      if boundSession == Some(sessionId) || !wellFormed || target == None { return; }
      if target.value == path {
        boundSession := Some(sessionId);
        ActivatePath(rewriteOk);
        return;
      }
      var merged := Move(path, target.value, outcome);
      path := target.value;
      boundSession := Some(sessionId);
      if merged {
        CompactCurrent(rewriteOk);
      } else {
        ActivatePath(rewriteOk);
      }
    }

    /** Renames onto a free path, appends onto an existing file; true when it appended
      * and the source is gone. */
    method Move(source: string, to: string, outcome: MoveOutcome) returns (merged: bool)
      modifies this`files
      ensures (files, merged) == MoveFile(old(files), source, to, outcome)
    {
      if source !in files || outcome.Unreadable? || outcome.Failed? { return false; }
      if to in files {
        files := files[to := files[to] + files[source]];
        if outcome.LeftBehind? { return false; }
        files := files - {source};
        return true;
      }
      files := files[to := files[source]] - {source};
      return false;
    }

    /** Reads back what was recorded, in stamp order and capped. */
    method Read(rewriteOk: bool) returns (out: seq<Record>)
      modifies this`files, this`growthBytes
      ensures out == ReadOf(old(View())) && View() == AfterRead(old(View()), rewriteOk)
    {
      hide NeedsCanonicalRewrite, SidecarRuns.Rewrite;
      if path !in files {
        out := [];
        return;
      }
      var scan := ScanSidecar(files[path]);
      if NeedsCanonicalRewrite(scan, Size(files[path])) {
        Rewrite(scan, rewriteOk);
      }
      out := scan.canonical;
    }
  }
}

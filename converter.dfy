/**
 * The program as it runs: the two global counters, the files on disk and the
 * console as the fields of one object, `progress()` and `main` as its methods.
 * Each method is proved to compute the pure function of module Walk that
 * specifies it.
 */
module Converter {
  import opened Text
  import opened Decision
  import opened Tree
  import opened Walk

  class Walker {
    /** chardet, iconv-lite, is-utf8, and the encoding and outcome of `writeFile`. */
    const codecs: Codecs
    /** `totalFoundCount`: entries listed so far. */
    var totalFoundCount: nat
    /** `nowScannedPosition`: entries handled so far. */
    var nowScannedPosition: nat
    /** The bytes of every file, by path. */
    var files: map<string, Bytes>
    /** The console. */
    var log: seq<Line>

    /** The fields as a `State` of the walk's specification. */
    ghost function View(): State
      reads this
    {
      State(totalFoundCount, nowScannedPosition, files, log, false)
    }

    /** The program's start: both counters at 0, nothing printed. */
    constructor (codecs: Codecs, files: map<string, Bytes>)
      ensures this.codecs == codecs
      ensures View() == State(0, 0, files, [], false)
    {
      this.codecs := codecs;
      totalFoundCount, nowScannedPosition := 0, 0;
      this.files := files;
      log := [];
    }

    /** `progress()`: bumps the position and gives what it prints, `position / total`. */
    method Progress() returns (shown: Tally)
      modifies this
      ensures nowScannedPosition == old(nowScannedPosition) + 1
      ensures shown == Tally(nowScannedPosition, totalFoundCount)
      ensures totalFoundCount == old(totalFoundCount) && files == old(files) && log == old(log)
    {
      nowScannedPosition := nowScannedPosition + 1;
      shown := Tally(nowScannedPosition, totalFoundCount);
    }

    /** `fs.promises.writeFile(fp, data)`: `ok` is false when the write is rejected, which leaves the file alone. */
    method WriteFile(fp: string, data: Bytes) returns (ok: bool)
      modifies this
      ensures ok == codecs.writeFile(fp, data)
      ensures files == if ok then old(files)[fp := data] else old(files)
      ensures totalFoundCount == old(totalFoundCount) && nowScannedPosition == old(nowScannedPosition)
      ensures log == old(log)
    {
      ok := codecs.writeFile(fp, data);
      if ok {
        files := files[fp := data];
      }
    }

    /**
     * The last branch of the loop body for the file at `fp`: read, detect,
     * announce, then rewrite as the branch says. `ok` is false when an
     * exception escapes and the run stops.
     */
    method Convert(fp: string, blk: nat) returns (ok: bool)
      modifies this
      ensures View().(aborted := !ok) == FileStep(codecs, fp, blk, old(View()))
    {
      if fp !in files {
        return false;  // readFile rejects
      }
      var fbuf := files[fp];
      var mpecd := MostPossibleEncoding(codecs.detect(fbuf));
      if mpecd.None? {
        return false;  // TypeError in getMostPossibleEncoding
      }
      var enc := mpecd.value;
      if enc == "UTF-8" {
        var shown := Progress();
        log := log + [Jump(blk, fp, shown)];
        ok := true;
        if HasBom(fbuf) {
          ok := WriteFile(fp, StripBomBuffer(codecs, fbuf));
        }
      } else if enc == "Big5" || enc == "GB18030" {
        var shown := Progress();
        log := log + [ProcGbk(blk, fp, shown)];
        var text := codecs.decode(fbuf, "GBK");
        if text.None? {
          return false;  // the decode error escapes
        }
        ok := WriteFile(fp, codecs.encodeUtf8(StripBom(text.value)));
      } else if Contains(enc, "UTF-16") {
        var shown := Progress();
        log := log + [ProcUtf16(blk, fp, shown)];
        var text := codecs.decode(fbuf, enc);
        if text.None? {
          return false;  // the decode error escapes
        }
        ok := WriteFile(fp, codecs.encodeUtf8(StripBom(text.value)));
      } else {
        var shown := Progress();
        log := log + [TryProc(blk, fp, enc, shown)];
        var decodedStr := codecs.decode(fbuf, enc);
        if decodedStr.None? {
          log := log + [ConvertError(fp)];
          return true;  // caught: continue with the next entry
        }
        ok := WriteFile(fp, codecs.encodeUtf8(StripBom(decodedStr.value)));
      }
    }

    /**
     * `main(targetDir, blk)` on the directory whose listing is `t`: count the
     * listing, then handle its entries in order. `ok` is false when an
     * exception escapes.
     */
    method ScanDir(t: Node, targetDir: string, blk: nat) returns (ok: bool)
      requires t.Dir?
      modifies this
      ensures View().(aborted := !ok) == WalkDir(codecs, t, targetDir, blk, old(View()))
      decreases t, 1
    {
      var list := t.list;
      totalFoundCount := totalFoundCount + |list|;
      ghost var start := View();
      for i := 0 to |list|
        invariant View() == WalkEntries(codecs, t, i, targetDir, blk, start)
      {
        var done := Visit(t, i, targetDir, blk);
        if !done {
          AbortedEntriesStay(codecs, t, i + 1, |list|, targetDir, blk, start);
          return false;
        }
      }
      return true;
    }

    /**
     * One iteration of `main`'s loop, on entry `i` of the listing `t` of
     * `targetDir`: hidden names are only counted, directories are entered with
     * `blk + 2`, other names without ".txt" are reported, the rest converted.
     */
    method Visit(t: Node, i: nat, targetDir: string, blk: nat) returns (ok: bool)
      requires t.Dir? && i < |t.list|
      modifies this
      ensures View().(aborted := !ok) == WalkEntry(codecs, t, i, targetDir, blk, old(View()))
      decreases t, 0
    {
      var fn := t.list[i].name;
      if Hidden(fn) {
        nowScannedPosition := nowScannedPosition + 1;
        return true;  // continue
      }
      var fp := Join(targetDir, fn);
      var fstat := t.list[i].node;
      if fstat.Dir? {
        log := log + [CdInto(fp)];
        nowScannedPosition := nowScannedPosition + 1;
        ok := ScanDir(fstat, fp, blk + 2);
      } else if !IsTextName(fn) {
        var shown := Progress();
        log := log + [NotTxt(fp, shown)];
        ok := true;
      } else {
        ok := Convert(fp, blk);
      }
    }
  }

  /**
   * The top-level `main(dir)` with both counters starting at 0. When no
   * exception escapes, the two counters end equal to the number of entries of
   * every directory visited; the position never passes the total; and only
   * files the walk targets can have changed.
   */
  method Run(c: Codecs, t: Node, dir: string, files: map<string, Bytes>)
    returns (ok: bool, found: nat, position: nat, after: map<string, Bytes>, log: seq<Line>)
    requires t.Dir?
    ensures position <= found && ShownWithinTotal(log)
    ensures ok ==> found == Visited(t) && position == Visited(t)
    ensures after.Keys == files.Keys
    ensures forall p :: p in files && p !in Targets(t, dir) ==> after[p] == files[p]
  {
    var w := new Walker(c, files);
    ok := w.ScanDir(t, dir, 0);
    CountersMeetAfterWalk(c, t, dir, files);
    WalkDirWritesOnlyTargets(c, t, dir, 0, State(0, 0, files, [], false));
    found, position, after, log := w.totalFoundCount, w.nowScannedPosition, w.files, w.log;
  }
}

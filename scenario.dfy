/**
 * A worked directory `d`: a file already in UTF-8, a UTF-8 file behind a BOM,
 * a file detected as GB18030, a file whose name lacks ".txt", and a hidden
 * directory.
 */
module Scenario {
  import opened Wrappers
  import opened Text
  import opened Decision
  import opened Tree
  import opened Walk

  /** The listing of `d`, in `readdirSync` order. */
  function Listing(na: string, nb: string, nc: string, nm: string, nh: string): (t: Node)
  {
    Dir([Entry(na, NonDir), Entry(nb, NonDir), Entry(nc, NonDir), Entry(nm, NonDir),
         Entry(nh, Dir([Entry("config", NonDir)]))])
  }

  /** The files of `d` before the run. */
  function Before(na: string, nb: string, nc: string, nm: string,
                  a: Bytes, hi: Bytes, g: Bytes, md: Bytes): (files: map<string, Bytes>)
  {
    map[Join("d", na) := a, Join("d", nb) := BOM + hi, Join("d", nc) := g, Join("d", nm) := md]
  }

  /** Entry `k` of `t` passes both filters, is no directory, and its path holds a file. */
  ghost predicate ReadableTextFile(t: Node, k: nat, dir: string, s: State)
  {
    t.Dir? && k < |t.list| && !s.aborted && !Hidden(t.list[k].name) && t.list[k].node.NonDir?
    && IsTextName(t.list[k].name) && Join(dir, t.list[k].name) in s.files
  }

  /** Such an entry takes the last branch of the loop body. */
  lemma TextEntryIsFileStep(c: Codecs, t: Node, k: nat, dir: string, blk: nat, s: State)
    requires ReadableTextFile(t, k, dir, s)
    ensures WalkEntry(c, t, k, dir, blk, s) == FileStep(c, Join(dir, t.list[k].name), blk, s)
  {
  }

  /** A UTF-8 file without a BOM is counted and kept. */
  lemma Utf8FileKept(c: Codecs, t: Node, k: nat, dir: string, blk: nat, s: State)
    requires ReadableTextFile(t, k, dir, s)
    requires var buf := s.files[Join(dir, t.list[k].name)]; c.detect(buf) == Label("UTF-8") && !HasBom(buf)
    ensures var r := WalkEntry(c, t, k, dir, blk, s);
            r.files == s.files && r.pos == s.pos + 1 && r.found == s.found && !r.aborted
  {
  }

  /** A valid UTF-8 file behind a BOM is counted and loses exactly the BOM. */
  lemma BomFileStripped(c: Codecs, t: Node, k: nat, dir: string, blk: nat, s: State, rest: Bytes)
    requires ReadableTextFile(t, k, dir, s)
    requires var buf := s.files[Join(dir, t.list[k].name)];
             buf == BOM + rest && c.detect(buf) == Label("UTF-8") && c.isUtf8(buf)
    requires c.writeFile(Join(dir, t.list[k].name), rest)
    ensures var r := WalkEntry(c, t, k, dir, blk, s);
            r.files == s.files[Join(dir, t.list[k].name) := rest] && r.pos == s.pos + 1 && r.found == s.found && !r.aborted
  {
    StripBomBufferAfterBom(c, rest);
  }

  /** A rejected write stops the run after the announce line; the file keeps its bytes. */
  lemma RejectedWriteStops(c: Codecs, t: Node, k: nat, dir: string, blk: nat, s: State)
    requires ReadableTextFile(t, k, dir, s)
    requires var path := Join(dir, t.list[k].name); var buf := s.files[path];
             c.detect(buf) == Label("UTF-8") && HasBom(buf) && !c.writeFile(path, StripBomBuffer(c, buf))
    ensures var r := WalkEntry(c, t, k, dir, blk, s);
            r.aborted && r.files == s.files && r.pos == s.pos + 1
            && r.log == s.log + [Jump(blk, Join(dir, t.list[k].name), Tally(s.pos + 1, s.found))]
  {
  }

  /** A GB18030 file that decodes as GBK is counted and rewritten as UTF-8. */
  lemma GbFileConverted(c: Codecs, t: Node, k: nat, dir: string, blk: nat, s: State, text: string)
    requires ReadableTextFile(t, k, dir, s)
    requires var buf := s.files[Join(dir, t.list[k].name)];
             c.detect(buf) == Label("GB18030") && c.decode(buf, "GBK") == Some(text)
    requires c.writeFile(Join(dir, t.list[k].name), c.encodeUtf8(StripBom(text)))
    ensures var r := WalkEntry(c, t, k, dir, blk, s);
            r.files == s.files[Join(dir, t.list[k].name) := c.encodeUtf8(StripBom(text))]
            && r.pos == s.pos + 1 && r.found == s.found && !r.aborted
  {
  }

  /** A Big5 file whose GBK decoding throws stops the run: the error is outside any `try`. */
  lemma GbDecodeErrorStops(c: Codecs, t: Node, k: nat, dir: string, blk: nat, s: State)
    requires ReadableTextFile(t, k, dir, s)
    requires var buf := s.files[Join(dir, t.list[k].name)];
             c.detect(buf) == Label("Big5") && c.decode(buf, "GBK").None?
    ensures var r := WalkEntry(c, t, k, dir, blk, s);
            r.aborted && r.files == s.files && r.pos == s.pos + 1
            && r.log == s.log + [ProcGbk(blk, Join(dir, t.list[k].name), Tally(s.pos + 1, s.found))]
  {
  }

  /** A UTF-16LE file is decoded with its own label and rewritten as UTF-8. */
  lemma Utf16FileConverted(c: Codecs, t: Node, k: nat, dir: string, blk: nat, s: State, text: string)
    requires ReadableTextFile(t, k, dir, s)
    requires var buf := s.files[Join(dir, t.list[k].name)];
             c.detect(buf) == Label("UTF-16LE") && c.decode(buf, "UTF-16LE") == Some(text)
    requires c.writeFile(Join(dir, t.list[k].name), c.encodeUtf8(StripBom(text)))
    ensures var r := WalkEntry(c, t, k, dir, blk, s);
            r.files == s.files[Join(dir, t.list[k].name) := c.encodeUtf8(StripBom(text))]
            && r.pos == s.pos + 1 && r.found == s.found && !r.aborted
            && r.log == s.log + [ProcUtf16(blk, Join(dir, t.list[k].name), Tally(s.pos + 1, s.found))]
  {
    UnicodeLabels();
  }

  /** A Shift_JIS file that decodes is tried and rewritten as UTF-8. */
  lemma TriedFileConverted(c: Codecs, t: Node, k: nat, dir: string, blk: nat, s: State, text: string)
    requires ReadableTextFile(t, k, dir, s)
    requires var buf := s.files[Join(dir, t.list[k].name)];
             c.detect(buf) == Label("Shift_JIS") && c.decode(buf, "Shift_JIS") == Some(text)
    requires c.writeFile(Join(dir, t.list[k].name), c.encodeUtf8(StripBom(text)))
    ensures var r := WalkEntry(c, t, k, dir, blk, s);
            r.files == s.files[Join(dir, t.list[k].name) := c.encodeUtf8(StripBom(text))]
            && r.pos == s.pos + 1 && r.found == s.found && !r.aborted
  {
    OtherLabels();
  }

  /** A Shift_JIS file that fails to decode is reported and skipped; the run goes on. */
  lemma TriedFileSkipped(c: Codecs, t: Node, k: nat, dir: string, blk: nat, s: State)
    requires ReadableTextFile(t, k, dir, s)
    requires var buf := s.files[Join(dir, t.list[k].name)];
             c.detect(buf) == Label("Shift_JIS") && c.decode(buf, "Shift_JIS").None?
    ensures var r := WalkEntry(c, t, k, dir, blk, s);
            var path := Join(dir, t.list[k].name);
            r.files == s.files && r.pos == s.pos + 1 && r.found == s.found && !r.aborted
            && r.log == s.log + [TryProc(blk, path, "Shift_JIS", Tally(s.pos + 1, s.found)), ConvertError(path)]
  {
    var path := Join(dir, t.list[k].name);
    TextEntryIsFileStep(c, t, k, dir, blk, s);
    OtherLabels();
    assert Decide(c, "Shift_JIS", s.files[path]) == DecodeFailed;
    assert Announce(Other, blk, path, "Shift_JIS", Tally(s.pos + 1, s.found))
           == TryProc(blk, path, "Shift_JIS", Tally(s.pos + 1, s.found));
  }

  /** The first two ".txt" files of the listing: the UTF-8 file is kept, the BOM file stripped. */
  lemma {:induction false} TwoFiles(c: Codecs, na: string, nb: string, nc: string, nm: string, nh: string,
                                    a: Bytes, hi: Bytes, g: Bytes, md: Bytes)
    requires !Hidden(na) && !Hidden(nb) && IsTextName(na) && IsTextName(nb)
    requires na != nb && na != nc && na != nm && nb != nc && nb != nm
    requires c.detect(a) == Label("UTF-8") && !HasBom(a)
    requires c.detect(BOM + hi) == Label("UTF-8") && c.isUtf8(BOM + hi) && c.writeFile(Join("d", nb), hi)
    ensures var files := Before(na, nb, nc, nm, a, hi, g, md);
            var r := WalkEntries(c, Listing(na, nb, nc, nm, nh), 2, "d", 0, State(5, 0, files, [], false));
            !r.aborted && r.found == 5 && r.pos == 2 && r.files == files[Join("d", nb) := hi]
  {
    var files := Before(na, nb, nc, nm, a, hi, g, md);
    var t := Listing(na, nb, nc, nm, nh);
    var pa, pb := Join("d", na), Join("d", nb);
    var s0 := State(5, 0, files, [], false);
    assert files[pa] == a && files[pb] == BOM + hi by {
      JoinInjective("d", na, nb); JoinInjective("d", na, nc); JoinInjective("d", na, nm);
      JoinInjective("d", nb, nc); JoinInjective("d", nb, nm);
    }
    var s1 := WalkEntry(c, t, 0, "d", 0, s0);
    Utf8FileKept(c, t, 0, "d", 0, s0);
    assert WalkEntries(c, t, 1, "d", 0, s0) == s1;
    BomFileStripped(c, t, 1, "d", 0, s1, hi);
    assert WalkEntries(c, t, 2, "d", 0, s0) == WalkEntry(c, t, 1, "d", 0, s1);
  }

  /** The three ".txt" files of the listing, one after the other. */
  lemma {:induction false} ThreeFiles(c: Codecs, na: string, nb: string, nc: string, nm: string, nh: string,
                                      a: Bytes, hi: Bytes, g: Bytes, md: Bytes, text: string)
    requires !Hidden(na) && !Hidden(nb) && !Hidden(nc)
    requires IsTextName(na) && IsTextName(nb) && IsTextName(nc)
    requires na != nb && na != nc && na != nm && nb != nc && nb != nm && nc != nm
    requires c.detect(a) == Label("UTF-8") && !HasBom(a)
    requires c.detect(BOM + hi) == Label("UTF-8") && c.isUtf8(BOM + hi) && c.writeFile(Join("d", nb), hi)
    requires c.detect(g) == Label("GB18030") && c.decode(g, "GBK") == Some(text)
    requires c.writeFile(Join("d", nc), c.encodeUtf8(StripBom(text)))
    ensures var files := Before(na, nb, nc, nm, a, hi, g, md);
            var r := WalkEntries(c, Listing(na, nb, nc, nm, nh), 3, "d", 0, State(5, 0, files, [], false));
            && !r.aborted && r.found == 5 && r.pos == 3
            && r.files == files[Join("d", nb) := hi][Join("d", nc) := c.encodeUtf8(StripBom(text))]
  {
    var files := Before(na, nb, nc, nm, a, hi, g, md);
    var t := Listing(na, nb, nc, nm, nh);
    var pb, pc := Join("d", nb), Join("d", nc);
    var s0 := State(5, 0, files, [], false);
    var s2 := WalkEntries(c, t, 2, "d", 0, s0);
    var s3 := WalkEntry(c, t, 2, "d", 0, s2);
    assert WalkEntries(c, t, 3, "d", 0, s0) == s3;
    assert s2.files == files[pb := hi] && !s2.aborted && s2.pos == 2 && s2.found == 5 by {
      TwoFiles(c, na, nb, nc, nm, nh, a, hi, g, md);
    }
    assert pc in files && files[pc] == g && pb != pc by {
      JoinInjective("d", nb, nc); JoinInjective("d", na, nc); JoinInjective("d", nc, nm);
    }
    assert ReadableTextFile(t, 2, "d", s2) && s2.files[pc] == g by {
      assert t.list[2].name == nc && t.list[2].node.NonDir?;
    }
    assert s3.files == s2.files[pc := c.encodeUtf8(StripBom(text))] && !s3.aborted && s3.pos == 3 && s3.found == 5 by {
      GbFileConverted(c, t, 2, "d", 0, s2, text);
    }
  }

  /**
   * One run: the UTF-8 file and the non-".txt" file keep their bytes, the
   * BOM file loses exactly its BOM, the GB18030 file becomes the UTF-8 of its
   * GBK decoding, the hidden directory is not entered, and both counters end
   * at 5, the length of the listing.
   */
  lemma {:induction false} OneRun(c: Codecs, na: string, nb: string, nc: string, nm: string, nh: string,
                                  a: Bytes, hi: Bytes, g: Bytes, md: Bytes, text: string)
    requires !Hidden(na) && !Hidden(nb) && !Hidden(nc) && !Hidden(nm) && Hidden(nh)
    requires IsTextName(na) && IsTextName(nb) && IsTextName(nc) && !IsTextName(nm)
    requires na != nb && na != nc && na != nm && nb != nc && nb != nm && nc != nm
    requires c.detect(a) == Label("UTF-8") && !HasBom(a)
    requires c.detect(BOM + hi) == Label("UTF-8") && c.isUtf8(BOM + hi) && c.writeFile(Join("d", nb), hi)
    requires c.detect(g) == Label("GB18030") && c.decode(g, "GBK") == Some(text)
    requires c.writeFile(Join("d", nc), c.encodeUtf8(StripBom(text)))
    ensures var files := Before(na, nb, nc, nm, a, hi, g, md);
            var r := WalkDir(c, Listing(na, nb, nc, nm, nh), "d", 0, State(0, 0, files, [], false));
            && !r.aborted && r.found == 5 && r.pos == 5
            && r.files == files[Join("d", nb) := hi][Join("d", nc) := c.encodeUtf8(StripBom(text))]
  {
    var files := Before(na, nb, nc, nm, a, hi, g, md);
    var t := Listing(na, nb, nc, nm, nh);
    var s0 := State(5, 0, files, [], false);
    ThreeFiles(c, na, nb, nc, nm, nh, a, hi, g, md, text);
    var s3 := WalkEntries(c, t, 3, "d", 0, s0);
    var s4 := WalkEntry(c, t, 3, "d", 0, s3);
    assert s4.files == s3.files && s4.pos == 4 && s4.found == 5 && !s4.aborted;
    assert WalkEntries(c, t, 4, "d", 0, s0) == s4;
    var s5 := WalkEntry(c, t, 4, "d", 0, s4);
    assert s5 == s4.(pos := 5);
    assert WalkEntries(c, t, 5, "d", 0, s0) == s5;
  }

  /**
   * The worked directory with the BOM file read-only: its write is rejected,
   * the run stops there with the position at 2, no file has changed, and the
   * counters do not meet.
   */
  lemma {:induction false} RejectedWriteStopsRun(c: Codecs, na: string, nb: string, nc: string, nm: string, nh: string,
                                                 a: Bytes, hi: Bytes, g: Bytes, md: Bytes)
    requires !Hidden(na) && !Hidden(nb) && IsTextName(na) && IsTextName(nb)
    requires na != nb && na != nc && na != nm && nb != nc && nb != nm && nc != nm
    requires c.detect(a) == Label("UTF-8") && !HasBom(a)
    requires c.detect(BOM + hi) == Label("UTF-8") && c.isUtf8(BOM + hi) && !c.writeFile(Join("d", nb), hi)
    ensures var files := Before(na, nb, nc, nm, a, hi, g, md);
            var r := WalkDir(c, Listing(na, nb, nc, nm, nh), "d", 0, State(0, 0, files, [], false));
            r.aborted && r.found == 5 && r.pos == 2 && r.files == files
  {
    var files := Before(na, nb, nc, nm, a, hi, g, md);
    var t := Listing(na, nb, nc, nm, nh);
    var pa, pb := Join("d", na), Join("d", nb);
    var s0 := State(5, 0, files, [], false);
    assert files[pa] == a && files[pb] == BOM + hi by {
      JoinInjective("d", na, nb); JoinInjective("d", na, nc); JoinInjective("d", na, nm);
      JoinInjective("d", nb, nc); JoinInjective("d", nb, nm);
    }
    var s1 := WalkEntry(c, t, 0, "d", 0, s0);
    Utf8FileKept(c, t, 0, "d", 0, s0);
    assert WalkEntries(c, t, 1, "d", 0, s0) == s1;
    StripBomBufferAfterBom(c, hi);
    RejectedWriteStops(c, t, 1, "d", 0, s1);
    assert WalkEntries(c, t, 2, "d", 0, s0).aborted;
    AbortedEntriesStay(c, t, 2, 5, "d", 0, s0);
  }
}

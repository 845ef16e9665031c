/**
 * The walk of `main` as pure functions over a `State`: the two progress
 * counters, the file map, the log and whether an uncaught exception has
 * stopped the run. Class `Walker` of module Converter is proved to compute exactly
 * these functions; the lemmas below are about them.
 */
module Walk {
  import opened Text
  import opened Decision
  import opened Tree

  /** What `progress()` prints: the bumped position over the total found so far. */
  datatype Tally = Tally(position: nat, total: nat)

  /**
   * One log line, with the path of the entry it is about (the program prints
   * the entry's name). The four file lines carry the indentation `blk`.
   */
  datatype Line =
    | CdInto(path: string)                                        // "cd->: fn"
    | NotTxt(path: string, shown: Tally)                          // "not a file meet '*.txt'"
    | Jump(indent: nat, path: string, shown: Tally)               // "jump: ..., already been UTF-8"
    | ProcGbk(indent: nat, path: string, shown: Tally)            // "proc: ..., rewrite from GBK"
    | ProcUtf16(indent: nat, path: string, shown: Tally)          // "proc: ..., rewrite from UTF-16"
    | TryProc(indent: nat, path: string, encoding: string, shown: Tally) // "try proc: ..."
    | ConvertError(path: string)                                  // "error while converting file"
  {
    predicate Shows() { NotTxt? || Jump? || ProcGbk? || ProcUtf16? || TryProc? }
    predicate Indented() { Jump? || ProcGbk? || ProcUtf16? || TryProc? }
  }

  /** The effects of the program: the globals, the files, the console, and a stopped run. */
  datatype State = State(found: nat, pos: nat, files: map<string, Bytes>, log: seq<Line>, aborted: bool)

  /** The line announcing which branch a file took. */
  function Announce(b: Branch, indent: nat, path: string, encoding: string, shown: Tally): (l: Line)
    ensures l.Indented() && l.indent == indent && l.path == path && l.shown == shown
    ensures b == Utf8 <==> l.Jump?
    ensures b == Gbk <==> l.ProcGbk?
    ensures b == Utf16 <==> l.ProcUtf16?
    ensures b == Other <==> l.TryProc? && l.encoding == encoding
  {
    match b
    case Utf8 => Jump(indent, path, shown)
    case Gbk => ProcGbk(indent, path, shown)
    case Utf16 => ProcUtf16(indent, path, shown)
    case Other => TryProc(indent, path, encoding, shown)
  }

  /**
   * The last branch of `main`'s loop body: a name containing ".txt" that is
   * not a directory. The file is read, its label detected, the branch
   * announced with the bumped position, and the file rewritten as `Decide`
   * says for the detected label.
   */
  function FileStep(c: Codecs, path: string, blk: nat, s: State): (r: State)
    requires !s.aborted
    ensures r.found == s.found && r.files.Keys == s.files.Keys && s.log <= r.log
    // the file is the only one that may change
    ensures forall p :: p in s.files && p != path ==> r.files[p] == s.files[p]
    // an unreadable file stops the run untouched
    ensures path !in s.files ==> r == s.(aborted := true)
    // one position per file the run gets past
    ensures !r.aborted ==> r.pos == s.pos + 1
    ensures r.aborted ==> r.pos <= s.pos + 1
    // the lines written: one announcing the branch, plus one on a caught decode error
    ensures |r.log| - |s.log| <= 2
    ensures forall i :: |s.log| <= i < |r.log| ==>
              (r.log[i].Indented() && r.log[i].indent == blk && r.log[i].path == path
               && r.log[i].shown == Tally(s.pos + 1, s.found))
              || r.log[i] == ConvertError(path)
  {
    if path !in s.files then s.(aborted := true)
    else
      var buf := s.files[path];
      match MostPossibleEncoding(c.detect(buf))
      case None => s.(aborted := true)
      case Some(enc) =>
        var s1 := s.(pos := s.pos + 1,
                     log := s.log + [Announce(BranchOf(enc), blk, path, enc, Tally(s.pos + 1, s.found))]);
        match Decide(c, enc, buf)
        case Unchanged => s1
        case Rewrite(b) => if c.writeFile(path, b) then s1.(files := s.files[path := b]) else s1.(aborted := true)
        case DecodeFailed => s1.(log := s1.log + [ConvertError(path)])
        case Throws => s1.(aborted := true)
  }

  /**
   * What `FileStep` does, stated by the label the detector returned. A detector answer the adapter throws on stops the run untouched;
   * otherwise the branch of the detected label is announced with the bumped
   * position, the file gets exactly what `Decide` gives for that label when the
   * write goes through, and the run stops on an escaping decode error or a
   * rejected write.
   */
  lemma FileStepDecides(c: Codecs, path: string, blk: nat, s: State)
    requires !s.aborted && path in s.files
    ensures var r := FileStep(c, path, blk, s);
            var buf := s.files[path];
            var enc := MostPossibleEncoding(c.detect(buf));
            && (enc.None? ==> r == s.(aborted := true))
            && (enc.Some? ==>
                  var e := Decide(c, enc.value, buf);
                  && r.found == s.found && r.pos == s.pos + 1
                  && r.log == s.log + [Announce(BranchOf(enc.value), blk, path, enc.value, Tally(s.pos + 1, s.found))]
                                     + (if e.DecodeFailed? then [ConvertError(path)] else [])
                  && (r.aborted <==> e.Throws? || (e.Rewrite? && !c.writeFile(path, e.content)))
                  && r.files == (if e.Rewrite? && c.writeFile(path, e.content) then s.files[path := e.content] else s.files))
  {
  }

  /** `main(dir, blk)` run on the listing `t` of `dir`. */
  function WalkDir(c: Codecs, t: Node, dir: string, blk: nat, s: State): (r: State)
    requires t.Dir?
    ensures s.aborted ==> r == s
    ensures r.files.Keys == s.files.Keys && s.log <= r.log && s.pos <= r.pos && s.found <= r.found
    decreases t, 2, 0
  {
    if s.aborted then s
    else WalkEntries(c, t, |t.list|, dir, blk, s.(found := s.found + |t.list|))
  }

  /** The `for` loop after its first `n` iterations. */
  function WalkEntries(c: Codecs, t: Node, n: nat, dir: string, blk: nat, s: State): (r: State)
    requires t.Dir? && n <= |t.list|
    ensures s.aborted ==> r == s
    ensures r.files.Keys == s.files.Keys && s.log <= r.log && s.pos <= r.pos && s.found <= r.found
    decreases t, 1, n
  {
    if n == 0 then s
    else WalkEntry(c, t, n - 1, dir, blk, WalkEntries(c, t, n - 1, dir, blk, s))
  }

  /** One iteration of the loop: entry `k` of the listing `t` of `dir`. */
  function WalkEntry(c: Codecs, t: Node, k: nat, dir: string, blk: nat, s: State): (r: State)
    requires t.Dir? && k < |t.list|
    ensures s.aborted ==> r == s
    ensures r.files.Keys == s.files.Keys && s.log <= r.log && s.pos <= r.pos && s.found <= r.found
    // a hidden entry is only counted
    ensures !s.aborted && Hidden(t.list[k].name) ==> r == s.(pos := s.pos + 1)
    // a name without ".txt" that is not a directory is counted and reported, never read or written
    ensures !s.aborted && !Hidden(t.list[k].name) && t.list[k].node.NonDir? && !IsTextName(t.list[k].name) ==>
              r == s.(pos := s.pos + 1,
                      log := s.log + [NotTxt(Join(dir, t.list[k].name), Tally(s.pos + 1, s.found))])
    decreases t, 0, 0
  {
    if s.aborted then s
    else
      var e := t.list[k];
      if Hidden(e.name) then s.(pos := s.pos + 1)
      else
        var fp := Join(dir, e.name);
        if e.node.Dir? then
          WalkDir(c, e.node, fp, blk + 2, s.(pos := s.pos + 1, log := s.log + [CdInto(fp)]))
        else if !IsTextName(e.name) then
          s.(pos := s.pos + 1, log := s.log + [NotTxt(fp, Tally(s.pos + 1, s.found))])
        else
          FileStep(c, fp, blk, s)
  }

  // ---------------------------------------------------------------------------
  // Counting: every listed entry advances the position once

  /** The number of entries listed by `main` on `t` and every directory it enters. */
  ghost function Visited(t: Node): (n: nat)
    decreases t, 1, 0
  {
    if t.Dir? then |t.list| + VisitedBelow(t, |t.list|) else 0
  }

  /** What the first `n` entries of `t` add by the directories they lead into. */
  ghost function VisitedBelow(t: Node, n: nat): (m: nat)
    requires t.Dir? && n <= |t.list|
    decreases t, 0, n
  {
    if n == 0 then 0
    else
      var e := t.list[n - 1];
      VisitedBelow(t, n - 1) + (if !Hidden(e.name) && e.node.Dir? then Visited(e.node) else 0)
  }

  /** Every tally shown in the log is at most the total it is shown against. */
  ghost predicate ShownWithinTotal(log: seq<Line>)
  {
    forall i :: 0 <= i < |log| && log[i].Shows() ==> log[i].shown.position <= log[i].shown.total
  }

  /**
   * The position never overtakes the total, every `k / n` printed has `k <= n`,
   * and a walk that is not stopped adds the same number, `Visited(t)`, to both.
   */
  lemma {:induction false} WalkDirCounts(c: Codecs, t: Node, dir: string, blk: nat, s: State)
    requires t.Dir? && !s.aborted && s.pos <= s.found && ShownWithinTotal(s.log)
    ensures var r := WalkDir(c, t, dir, blk, s);
            r.found - r.pos >= s.found - s.pos && ShownWithinTotal(r.log)
            && (!r.aborted ==> r.found == s.found + Visited(t) && r.pos == s.pos + Visited(t))
    decreases t, 2, 0
  {
    WalkEntriesCounts(c, t, |t.list|, dir, blk, s.(found := s.found + |t.list|));
  }

  /** The loop after `n` iterations has advanced the position by `n` plus what the entered directories listed. */
  lemma {:induction false} WalkEntriesCounts(c: Codecs, t: Node, n: nat, dir: string, blk: nat, s: State)
    requires t.Dir? && n <= |t.list| && !s.aborted && s.found - s.pos >= n && ShownWithinTotal(s.log)
    ensures var r := WalkEntries(c, t, n, dir, blk, s);
            r.found - r.pos >= s.found - s.pos - n && ShownWithinTotal(r.log)
            && (!r.aborted ==> r.found == s.found + VisitedBelow(t, n) && r.pos == s.pos + n + VisitedBelow(t, n))
    decreases t, 1, n
  {
    if n > 0 {
      WalkEntriesCounts(c, t, n - 1, dir, blk, s);
      var m := WalkEntries(c, t, n - 1, dir, blk, s);
      if !m.aborted {
        WalkEntryCounts(c, t, n - 1, dir, blk, m);
      }
    }
  }

  /** One entry advances the position exactly once, plus what its directory lists when it is one. */
  lemma {:induction false} WalkEntryCounts(c: Codecs, t: Node, k: nat, dir: string, blk: nat, s: State)
    requires t.Dir? && k < |t.list| && !s.aborted && s.found - s.pos >= 1 && ShownWithinTotal(s.log)
    ensures var r := WalkEntry(c, t, k, dir, blk, s);
            var e := t.list[k];
            var below := if !Hidden(e.name) && e.node.Dir? then Visited(e.node) else 0;
            r.found - r.pos >= s.found - s.pos - 1 && ShownWithinTotal(r.log)
            && (!r.aborted ==> r.found == s.found + below && r.pos == s.pos + 1 + below)
    decreases t, 0, 0
  {
    var e := t.list[k];
    if !Hidden(e.name) {
      var fp := Join(dir, e.name);
      if e.node.Dir? {
        var s1 := s.(pos := s.pos + 1, log := s.log + [CdInto(fp)]);
        assert ShownWithinTotal(s1.log);
        WalkDirCounts(c, e.node, fp, blk + 2, s1);
      } else if IsTextName(e.name) {
        var r := FileStep(c, fp, blk, s);
        assert r.log[..|s.log|] == s.log;
        assert ShownWithinTotal(r.log) by {
          forall i | 0 <= i < |r.log| && r.log[i].Shows()
            ensures r.log[i].shown.position <= r.log[i].shown.total
          {
            if i < |s.log| { assert r.log[i] == s.log[i]; }
          }
        }
      }
    }
  }

  /** After `main(root)` on a fresh run, the two counters agree and count every visited entry. */
  lemma {:induction false} CountersMeetAfterWalk(c: Codecs, t: Node, root: string, files: map<string, Bytes>)
    requires t.Dir?
    ensures var r := WalkDir(c, t, root, 0, State(0, 0, files, [], false));
            r.pos <= r.found && ShownWithinTotal(r.log)
            && (!r.aborted ==> r.found == Visited(t) && r.pos == Visited(t))
  {
    WalkDirCounts(c, t, root, 0, State(0, 0, files, [], false));
  }

  // ---------------------------------------------------------------------------
  // A stopped run stays stopped

  /** Once an iteration has thrown, the rest of the loop never runs. */
  lemma {:induction false} AbortedEntriesStay(c: Codecs, t: Node, i: nat, j: nat, dir: string, blk: nat, s: State)
    requires t.Dir? && i <= j <= |t.list| && WalkEntries(c, t, i, dir, blk, s).aborted
    ensures WalkEntries(c, t, j, dir, blk, s) == WalkEntries(c, t, i, dir, blk, s)
    decreases j
  {
    if j > i {
      AbortedEntriesStay(c, t, i, j - 1, dir, blk, s);
    }
  }

  // ---------------------------------------------------------------------------
  // Which files the walk may change

  /** The paths the walk reads and may rewrite: names containing ".txt" outside hidden entries. */
  ghost function Targets(t: Node, dir: string): (ps: set<string>)
    decreases t, 1, 0
  {
    if t.Dir? then TargetsBelow(t, |t.list|, dir) else {}
  }

  /** The targets among the first `n` entries of `t`. */
  ghost function TargetsBelow(t: Node, n: nat, dir: string): (ps: set<string>)
    requires t.Dir? && n <= |t.list|
    decreases t, 0, n
  {
    if n == 0 then {}
    else
      var e := t.list[n - 1];
      TargetsBelow(t, n - 1, dir)
      + (if Hidden(e.name) then {}
         else if e.node.Dir? then Targets(e.node, Join(dir, e.name))
         else if IsTextName(e.name) then {Join(dir, e.name)}
         else {})
  }

  /** Hidden entries, names without ".txt" and everything under a hidden directory keep their bytes. */
  lemma {:induction false} WalkDirWritesOnlyTargets(c: Codecs, t: Node, dir: string, blk: nat, s: State)
    requires t.Dir?
    ensures var r := WalkDir(c, t, dir, blk, s);
            forall p :: p in s.files && p !in Targets(t, dir) ==> r.files[p] == s.files[p]
    decreases t, 2, 0
  {
    if !s.aborted {
      WalkEntriesWritesOnlyTargets(c, t, |t.list|, dir, blk, s.(found := s.found + |t.list|));
    }
  }

  /** The loop's first `n` iterations change no file outside their targets. */
  lemma {:induction false} WalkEntriesWritesOnlyTargets(c: Codecs, t: Node, n: nat, dir: string, blk: nat, s: State)
    requires t.Dir? && n <= |t.list|
    ensures var r := WalkEntries(c, t, n, dir, blk, s);
            forall p :: p in s.files && p !in TargetsBelow(t, n, dir) ==> r.files[p] == s.files[p]
    decreases t, 1, n
  {
    if n > 0 {
      WalkEntriesWritesOnlyTargets(c, t, n - 1, dir, blk, s);
      var m := WalkEntries(c, t, n - 1, dir, blk, s);
      WalkEntryWritesOnlyTargets(c, t, n - 1, dir, blk, m);
    }
  }

  /** One entry changes at most its own file, or files under the directory it enters. */
  lemma {:induction false} WalkEntryWritesOnlyTargets(c: Codecs, t: Node, k: nat, dir: string, blk: nat, s: State)
    requires t.Dir? && k < |t.list|
    ensures var r := WalkEntry(c, t, k, dir, blk, s);
            var e := t.list[k];
            var mine := if Hidden(e.name) then {}
                        else if e.node.Dir? then Targets(e.node, Join(dir, e.name))
                        else if IsTextName(e.name) then {Join(dir, e.name)}
                        else {};
            forall p :: p in s.files && p !in mine ==> r.files[p] == s.files[p]
    decreases t, 0, 0
  {
    var e := t.list[k];
    if !s.aborted && !Hidden(e.name) && e.node.Dir? {
      var fp := Join(dir, e.name);
      WalkDirWritesOnlyTargets(c, e.node, fp, blk + 2, s.(pos := s.pos + 1, log := s.log + [CdInto(fp)]));
    }
  }

  // ---------------------------------------------------------------------------
  // Indentation follows depth

  /** The number of '/' in a path. */
  function Slashes(p: string): (n: nat)
  {
    if p == [] then 0 else (if p[0] == '/' then 1 else 0) + Slashes(p[1..])
  }

  /** Counting slashes distributes over concatenation. */
  lemma {:induction false} SlashesConcat(a: string, b: string)
    ensures Slashes(a + b) == Slashes(a) + Slashes(b)
  {
    if a != [] {
      assert (a + b)[1..] == a[1..] + b;
      SlashesConcat(a[1..], b);
    } else {
      assert a + b == b;
    }
  }

  /** A slash-free name adds exactly one level to a path. */
  lemma {:induction false} JoinAddsOneLevel(dir: string, fn: string)
    requires SlashFree(fn)
    ensures Slashes(Join(dir, fn)) == Slashes(dir) + 1
  {
    assert Slashes(fn) == 0 by { SlashFreeHasNoSlashes(fn); }
    SlashesConcat(dir, "/");
    SlashesConcat(dir + "/", fn);
  }

  /** A slash-free string counts no slashes. */
  lemma {:induction false} SlashFreeHasNoSlashes(fn: string)
    requires SlashFree(fn)
    ensures Slashes(fn) == 0
  {
    if fn != [] {
      assert SlashFree(fn[1..]) by {
        forall i | 0 <= i < |fn[1..]| ensures fn[1..][i] != '/' { assert fn[1..][i] == fn[i + 1]; }
      }
      SlashFreeHasNoSlashes(fn[1..]);
    }
  }

  /** Every name in `t` and below is slash-free, as `readdirSync` guarantees. */
  ghost predicate NamesSlashFree(t: Node)
    decreases t
  {
    t.Dir? ==> forall k :: 0 <= k < |t.list| ==> SlashFree(t.list[k].name) && NamesSlashFree(t.list[k].node)
  }

  /** Lines from index `from` on are indented by `blk` plus two spaces per directory between `dir` and their file. */
  ghost predicate IndentedByDepth(log: seq<Line>, from: nat, dir: string, blk: nat)
  {
    forall i :: from <= i < |log| && log[i].Indented() ==>
      log[i].indent == blk + 2 * (Slashes(log[i].path) - Slashes(dir) - 1)
  }

  /** `main(dir, blk)` indents a file `d` directories below `dir` by `blk + 2 * d`. */
  lemma {:induction false} WalkDirIndents(c: Codecs, t: Node, dir: string, blk: nat, s: State)
    requires t.Dir? && NamesSlashFree(t)
    ensures IndentedByDepth(WalkDir(c, t, dir, blk, s).log, |s.log|, dir, blk)
    decreases t, 2, 0
  {
    if !s.aborted {
      WalkEntriesIndents(c, t, |t.list|, dir, blk, s.(found := s.found + |t.list|));
    }
  }

  /** The lines of the loop's first `n` iterations are indented by depth. */
  lemma {:induction false} WalkEntriesIndents(c: Codecs, t: Node, n: nat, dir: string, blk: nat, s: State)
    requires t.Dir? && n <= |t.list| && NamesSlashFree(t)
    ensures IndentedByDepth(WalkEntries(c, t, n, dir, blk, s).log, |s.log|, dir, blk)
    decreases t, 1, n
  {
    if n > 0 {
      WalkEntriesIndents(c, t, n - 1, dir, blk, s);
      var m := WalkEntries(c, t, n - 1, dir, blk, s);
      WalkEntryIndents(c, t, n - 1, dir, blk, m);
      var r := WalkEntry(c, t, n - 1, dir, blk, m);
      assert r.log[..|m.log|] == m.log;
      forall i | |s.log| <= i < |r.log| && r.log[i].Indented()
        ensures r.log[i].indent == blk + 2 * (Slashes(r.log[i].path) - Slashes(dir) - 1)
      {
        if i < |m.log| { assert r.log[i] == m.log[i]; }
      }
    }
  }

  /** The lines of one entry are indented by depth. */
  lemma {:induction false} WalkEntryIndents(c: Codecs, t: Node, k: nat, dir: string, blk: nat, s: State)
    requires t.Dir? && k < |t.list| && NamesSlashFree(t)
    ensures IndentedByDepth(WalkEntry(c, t, k, dir, blk, s).log, |s.log|, dir, blk)
    decreases t, 0, 0
  {
    var e := t.list[k];
    if !s.aborted && !Hidden(e.name) {
      var fp := Join(dir, e.name);
      JoinAddsOneLevel(dir, e.name);
      if e.node.Dir? {
        var s1 := s.(pos := s.pos + 1, log := s.log + [CdInto(fp)]);
        WalkDirIndents(c, e.node, fp, blk + 2, s1);
      }
    }
  }

  /** From the root (`blk = 0`) a file `d` directories deep is indented by `2 * d` spaces. */
  lemma {:induction false} RootIndentIsTwiceDepth(c: Codecs, t: Node, root: string, files: map<string, Bytes>)
    requires t.Dir? && NamesSlashFree(t)
    ensures var r := WalkDir(c, t, root, 0, State(0, 0, files, [], false));
            forall i :: 0 <= i < |r.log| && r.log[i].Indented() ==>
              r.log[i].indent == 2 * (Slashes(r.log[i].path) - Slashes(root) - 1)
  {
    WalkDirIndents(c, t, root, 0, State(0, 0, files, [], false));
  }
}

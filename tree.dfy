/**
 * The directory tree as `readdirSync` and `stat` see it, and the two name
 * filters `main` applies to every listed entry.
 */
module Tree {
  import opened Text

  /**
   * What `stat` reports for a path: a directory with its listing, in the order
   * `readdirSync` returns it, or anything else. File bytes are not part of the
   * tree; they live in the walker's file map, the only thing the walk changes.
   */
  datatype Node = Dir(list: seq<Entry>) | NonDir

  /** One name of a listing and what it names. */
  datatype Entry = Entry(name: string, node: Node)

  /** `fn[0] === '.'`: the name starts with a dot; an empty name has no first character and is not hidden. */
  predicate Hidden(fn: string)
    ensures Hidden(fn) <==> "." <= fn
  {
    |fn| > 0 && fn[0] == '.'
  }

  /** The path of entry `fn` of directory `dir`: `${targetDir}/${fn}`. */
  function Join(dir: string, fn: string): (p: string)
  {
    dir + "/" + fn
  }

  /**
   * The path determines the name: two names of one directory give the same
   * path only when they are the same name.
   */
  lemma JoinInjective(dir: string, x: string, y: string)
    ensures Join(dir, x) == Join(dir, y) <==> x == y
  {
    if Join(dir, x) == Join(dir, y) {
      assert x == Join(dir, x)[|dir| + 1..];
      assert y == Join(dir, y)[|dir| + 1..];
    }
  }

  /** `fn.toLowerCase().includes('.txt')`: a substring test, not a suffix test. */
  predicate IsTextName(fn: string)
  {
    Contains(ToLower(fn), ".txt")
  }

  /** The name filter accepts any casing and any position of ".txt", and nothing without it. */
  lemma TextNameExamples()
    ensures IsTextName("a.txt") && IsTextName("A.TXT") && IsTextName("x.txt.bak")
    ensures !IsTextName("readme.md") && !IsTextName("txt") && !IsTextName("a.tx")
  {
    assert OccursAt(ToLower("a.txt"), ".txt", 1);
    assert OccursAt(ToLower("A.TXT"), ".txt", 1);
    assert OccursAt(ToLower("x.txt.bak"), ".txt", 1);
    assert !Contains(ToLower("readme.md"), ".txt") by {
      forall i | 0 <= i <= |ToLower("readme.md")| - 4 ensures !OccursAt(ToLower("readme.md"), ".txt", i) {
        var w := ToLower("readme.md")[i..i + 4];
        assert w[1] == ToLower("readme.md")[i + 1];
      }
    }
  }

  /** `'T'` and `'t'` are the only characters that lower-case to `'t'`; likewise for `'x'` and `'.'`. */
  lemma LowerCharPreimages(ch: char)
    ensures LowerChar(ch) == '.' <==> ch == '.'
    ensures LowerChar(ch) == 't' <==> ch == 't' || ch == 'T'
    ensures LowerChar(ch) == 'x' <==> ch == 'x' || ch == 'X'
  {
  }

  /** There is ".txt" in `fn` at `i`, each letter in either case. */
  ghost predicate TxtAt(fn: string, i: int)
  {
    0 <= i <= |fn| - 4 && fn[i] == '.' && (fn[i + 1] == 't' || fn[i + 1] == 'T')
    && (fn[i + 2] == 'x' || fn[i + 2] == 'X') && (fn[i + 3] == 't' || fn[i + 3] == 'T')
  }

  /**
   * The name filter, stated without lower-casing: a name passes exactly when
   * ".txt" occurs somewhere in it with each letter in either case.
   */
  lemma TextNameAnyCase(fn: string)
    ensures IsTextName(fn) <==> exists i :: TxtAt(fn, i)
  {
    var low := ToLower(fn);
    forall i | 0 <= i <= |fn| - 4
      ensures OccursAt(low, ".txt", i) <==> TxtAt(fn, i)
    {
      LowerCharPreimages(fn[i]);
      LowerCharPreimages(fn[i + 1]);
      LowerCharPreimages(fn[i + 2]);
      LowerCharPreimages(fn[i + 3]);
      assert OccursAt(low, ".txt", i) <==>
             low[i] == '.' && low[i + 1] == 't' && low[i + 2] == 'x' && low[i + 3] == 't' by {
        var w := low[i..i + 4];
        assert w[0] == low[i] && w[1] == low[i + 1] && w[2] == low[i + 2] && w[3] == low[i + 3];
        if low[i] == '.' && low[i + 1] == 't' && low[i + 2] == 'x' && low[i + 3] == 't' {
          assert w == ".txt";
        }
      }
    }
    if IsTextName(fn) {
      var i :| OccursAt(low, ".txt", i);
      assert TxtAt(fn, i);
    }
    if exists i :: TxtAt(fn, i) {
      var i :| TxtAt(fn, i);
      assert OccursAt(low, ".txt", i);
    }
  }

  /** A name with a '/' cannot come out of `readdirSync`. */
  ghost predicate SlashFree(fn: string)
  {
    forall i :: 0 <= i < |fn| ==> fn[i] != '/'
  }
}

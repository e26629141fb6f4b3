/**
 * The replacement `Misc.unbind` of the tkinter adapter.  Tk keeps the
 * script bound to an event sequence as text, one line per bound callback;
 * tkinter writes each line as `if {"[<funcid> ...]" == "break"} break`, so
 * the command name of a callback starts at column 6.  Unbinding one funcid
 * reads the script, drops the lines naming it, and writes the rest back.
 * The script read and the script written are plain strings here; the
 * `tk.call` round trips themselves are not modelled.
 */
module TkUnbind {
  import opened Optional

  function Min(a: int, b: int): int
  {
    if a <= b then a else b
  }

  // ---------------------------------------------------------------------
  // Python string operations

  /** Python's `s[lo:hi]` for `0 <= lo <= hi`: out-of-range bounds are clamped, never an error. */
  function Slice(s: string, lo: nat, hi: nat): (r: string)
    requires lo <= hi
    ensures |r| == (if |s| <= lo then 0 else Min(hi, |s|) - lo)
    ensures forall i :: 0 <= i < |r| ==> r[i] == s[lo + i]
  {
    if |s| <= lo then "" else s[lo..Min(hi, |s|)]
  }

  /** `s.split('\n')`: always at least one piece, none of them holding a newline. */
  function Split(s: string): (r: seq<string>)
    ensures |r| >= 1
    ensures forall i :: 0 <= i < |r| ==> '\n' !in r[i]
  {
    if s == [] then
      [""]
    else
      var tail := Split(s[1..]);
      if s[0] == '\n' then [""] + tail else [[s[0]] + tail[0]] + tail[1..]
  }

  /** `'\n'.join(ls)`: the pieces with one newline between neighbours; `""` for no pieces. */
  function Join(ls: seq<string>): (r: string)
    ensures |ls| == 1 ==> r == ls[0]
  {
    if ls == [] then "" else if |ls| == 1 then ls[0] else ls[0] + "\n" + Join(ls[1..])
  }

  function NewlineFree(ls: seq<string>): bool
  {
    forall i :: 0 <= i < |ls| ==> '\n' !in ls[i]
  }

  /** Splitting what was joined gives the pieces back, when there is at least one and none holds a newline. */
  lemma {:induction false} SplitJoin(ls: seq<string>)
    requires ls != [] && NewlineFree(ls)
    ensures Split(Join(ls)) == ls
    decreases |ls|, if |ls| > 0 then |ls[0]| else 0
  {
    if |ls| == 1 {
      SplitPiece(ls[0], []);
      assert ls[0] + "" == ls[0] && ls == [ls[0]];
    } else {
      var rest := ls[1..];
      assert NewlineFree(rest) by {
        forall i | 0 <= i < |rest|
          ensures '\n' !in rest[i]
        {
          assert rest[i] == ls[i + 1];
        }
      }
      SplitJoin(rest);
      SplitPiece(ls[0], rest);
      assert [ls[0]] + rest == ls;
      assert Join(ls) == ls[0] + ("\n" + Join(rest));
    }
  }

  /** A newline-free piece in front of a split text becomes the first piece. */
  lemma {:induction false} SplitPiece(p: string, rest: seq<string>)
    requires '\n' !in p
    requires rest != [] ==> Split(Join(rest)) == rest
    ensures Split(p + (if rest == [] then "" else "\n" + Join(rest))) == [p] + rest
    decreases |p|
  {
    var t := if rest == [] then "" else "\n" + Join(rest);
    if p == [] {
      assert p + t == t;
      if rest != [] {
        assert t[1..] == Join(rest);
      }
    } else {
      assert (p + t)[1..] == p[1..] + t;
      SplitPiece(p[1..], rest);
      assert [p[0]] + p[1..] == p;
    }
  }

  /** Joining what was split gives the text back: no character is lost or added. */
  lemma {:induction false} JoinSplit(s: string)
    ensures Join(Split(s)) == s
  {
    if s != [] {
      var tail := Split(s[1..]);
      JoinSplit(s[1..]);
      if s[0] == '\n' {
        assert Split(s) == [""] + tail;
        assert ([""] + tail)[1..] == tail;
        assert Join(Split(s)) == "" + "\n" + Join(tail);
      } else {
        var r := [[s[0]] + tail[0]] + tail[1..];
        assert Split(s) == r;
        if |tail| == 1 {
          assert Join(r) == [s[0]] + tail[0];
        } else {
          assert r[1..] == tail[1..];
          assert Join(tail) == tail[0] + "\n" + Join(tail[1..]);
        }
      }
    }
  }

  // ---------------------------------------------------------------------
  // The line filter

  /** `l[6:6 + len(funcid)] == funcid`: the line names `funcid` at column 6. */
  predicate Names(line: string, funcid: string)
  {
    Slice(line, 6, 6 + |funcid|) == funcid
  }

  /** For a non-empty funcid, a line names it exactly when it is long enough and carries it at column 6. */
  lemma NamesAt(line: string, funcid: string)
    requires funcid != ""
    ensures Names(line, funcid) <==> |line| >= 6 + |funcid| && line[6..6 + |funcid|] == funcid
  {
    var r := Slice(line, 6, 6 + |funcid|);
    if |line| >= 6 + |funcid| {
      assert r == line[6..6 + |funcid|];
    } else {
      assert |r| < |funcid|;
    }
  }

  /** The line tkinter writes when it binds the command `funcid` (`if {"[funcid ...`). */
  function BindLine(funcid: string, rest: string): (r: string)
    ensures |r| == 6 + |funcid| + |rest|
  {
    "if {\"[" + funcid + rest
  }

  /** The line a binding wrote names its own command. */
  lemma OwnLineNamed(funcid: string, rest: string)
    ensures Names(BindLine(funcid, rest), funcid)
  {
    var l := BindLine(funcid, rest);
    assert l[6..6 + |funcid|] == funcid;
  }

  /** The line of another command of the same length does not name `funcid`. */
  lemma OtherLineNotNamed(other: string, funcid: string, rest: string)
    requires |other| == |funcid| && other != funcid
    ensures !Names(BindLine(other, rest), funcid)
  {
    var l := BindLine(other, rest);
    assert l[6..6 + |funcid|] == other;
  }

  /** `[l for l in lines if l[6:6 + len(funcid)] != funcid]` */
  function Filter(lines: seq<string>, funcid: string): (r: seq<string>)
    ensures |r| <= |lines|
    ensures forall l :: l in r <==> l in lines && !Names(l, funcid)
  {
    if lines == [] then [] else (if Names(lines[0], funcid) then [] else [lines[0]]) + Filter(lines[1..], funcid)
  }

  /** Every copy of a kept line is kept: each line occurs as often as before, or not at all when it names `funcid`. */
  lemma {:induction false} FilterCount(lines: seq<string>, funcid: string, l: string)
    ensures multiset(Filter(lines, funcid))[l] == if Names(l, funcid) then 0 else multiset(lines)[l]
  {
    if lines != [] {
      assert lines == [lines[0]] + lines[1..];
      FilterCount(lines[1..], funcid, l);
    }
  }

  /** The filter works line by line: filtering a concatenation filters each part. */
  lemma {:induction false} FilterAppend(a: seq<string>, b: seq<string>, funcid: string)
    ensures Filter(a + b, funcid) == Filter(a, funcid) + Filter(b, funcid)
  {
    if a != [] {
      assert (a + b)[0] == a[0] && (a + b)[1..] == a[1..] + b;
      FilterAppend(a[1..], b, funcid);
    } else {
      assert a + b == b;
    }
  }

  /** `a` is `b` with some elements deleted: the rest kept whole and in their order. */
  predicate Subsequence(a: seq<string>, b: seq<string>)
    decreases |b|
  {
    if a == [] then true
    else if b == [] then false
    else (a[0] == b[0] && Subsequence(a[1..], b[1..])) || Subsequence(a, b[1..])
  }

  /** The kept lines are unchanged and in their original relative order. */
  lemma {:induction false} FilterSubsequence(lines: seq<string>, funcid: string)
    ensures Subsequence(Filter(lines, funcid), lines)
  {
    if lines != [] {
      FilterSubsequence(lines[1..], funcid);
      var r := Filter(lines, funcid);
      if !Names(lines[0], funcid) {
        assert r[1..] == Filter(lines[1..], funcid);
      } else {
        assert r == Filter(lines[1..], funcid);
      }
    }
  }

  /** Filtering again with the same funcid removes nothing more. */
  lemma {:induction false} FilterIdempotent(lines: seq<string>, funcid: string)
    ensures Filter(Filter(lines, funcid), funcid) == Filter(lines, funcid)
  {
    if lines != [] {
      FilterIdempotent(lines[1..], funcid);
      var rest := Filter(lines[1..], funcid);
      if !Names(lines[0], funcid) {
        var r := [lines[0]] + rest;
        assert r[0] == lines[0] && r[1..] == rest;
        assert Filter(r, funcid) == [lines[0]] + Filter(rest, funcid);
        assert Filter(lines, funcid) == r;
      } else {
        assert Filter(lines, funcid) == rest;
      }
    }
  }

  /** The filter only drops lines: it keeps every line that names another command. */
  lemma {:induction false} FilterKeepsAllWhenNoneNamed(lines: seq<string>, funcid: string)
    requires forall i :: 0 <= i < |lines| ==> !Names(lines[i], funcid)
    ensures Filter(lines, funcid) == lines
  {
    if lines != [] {
      FilterKeepsAllWhenNoneNamed(lines[1..], funcid);
    }
  }

  // ---------------------------------------------------------------------
  // _new_unbind

  /** What `_new_unbind` leaves behind: the script now bound, and the command it deleted. */
  datatype UnbindEffect = UnbindEffect(script: string, deleted: Option<string>)

  /** `_new_unbind(sequence, funcid)` given the script currently bound to `sequence`. */
  function NewUnbind(current: string, funcid: Option<string>): (r: UnbindEffect)
    ensures funcid == None || funcid == Some("") ==> r == UnbindEffect("", None)
    ensures funcid != None && funcid != Some("") ==> r.deleted == funcid
  {
    if funcid == None || funcid == Some("") then
      UnbindEffect("", None)
    else
      UnbindEffect(Join(Filter(Split(current), funcid.value)), funcid)
  }

  /**
   * With a non-empty funcid the lines of the new script are the lines of
   * the old one that do not name it, in their order; none of them names it;
   * and unbinding the same funcid again leaves the script as it is.
   */
  lemma NewUnbindLines(current: string, funcid: string)
    requires funcid != ""
    ensures var kept := Filter(Split(current), funcid);
            var r := NewUnbind(current, Some(funcid));
            && (kept != [] ==> Split(r.script) == kept)
            && (kept == [] ==> r.script == "")
            && Subsequence(kept, Split(current))
            && NewUnbind(r.script, Some(funcid)).script == r.script
  {
    var lines := Split(current);
    var kept := Filter(lines, funcid);
    var r := NewUnbind(current, Some(funcid));
    FilterSubsequence(lines, funcid);
    if kept != [] {
      assert NewlineFree(kept) by {
        forall i | 0 <= i < |kept|
          ensures '\n' !in kept[i]
        {
          assert kept[i] in kept;
          var j :| 0 <= j < |lines| && lines[j] == kept[i];
        }
      }
      SplitJoin(kept);
      FilterIdempotent(lines, funcid);
    } else {
      assert Split("") == [""];
      assert Filter([""], funcid) == [""] by {
        NamesAt("", funcid);
        assert Filter([""][1..], funcid) == [];
      }
    }
  }
}

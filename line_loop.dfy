/**
  The shape shared by both converters: a loop over the lines of a text file
  that updates a state line by line. `Fold` is that loop as a function of
  its initial state, its step and the lines; the lemmas here are its
  induction principles, proved once for every step.
 */
module LineLoop {

  /** The state after `step` has consumed `lines`, one at a time, from `init`. */
  function Fold<S>(init: S, step: (S, string) -> S, lines: seq<string>): S {
    if |lines| == 0 then init
    else step(Fold(init, step, lines[..|lines| - 1]), lines[|lines| - 1])
  }

  /** One more line is one more step. */
  lemma FoldNext<S>(init: S, step: (S, string) -> S, lines: seq<string>, i: nat)
    requires i < |lines|
    ensures Fold(init, step, lines[..i + 1]) == step(Fold(init, step, lines[..i]), lines[i])
  {
    assert lines[..i + 1][..i] == lines[..i];
  }

  /** A line appended to the input is one more step at the end. */
  lemma FoldSnoc<S>(init: S, step: (S, string) -> S, lines: seq<string>, line: string)
    ensures Fold(init, step, lines + [line]) == step(Fold(init, step, lines), line)
  {
    assert (lines + [line])[..|lines|] == lines;
  }

  /** Consuming `xs + ys` is consuming `xs`, then `ys` from where that left off. */
  lemma {:induction false} FoldAppend<S>(init: S, step: (S, string) -> S, xs: seq<string>, ys: seq<string>)
    ensures Fold(init, step, xs + ys) == Fold(Fold(init, step, xs), step, ys)
  {
    if |ys| == 0 {
      assert xs + ys == xs;
    } else {
      var ys', y := ys[..|ys| - 1], ys[|ys| - 1];
      FoldAppend(init, step, xs, ys');
      assert (xs + ys)[..|xs + ys| - 1] == xs + ys';
    }
  }

  /** Consuming `[x] + ys` is one step on `x`, then `ys`. */
  lemma FoldFirst<S>(init: S, step: (S, string) -> S, x: string, ys: seq<string>)
    ensures Fold(init, step, [x] + ys) == Fold(step(init, x), step, ys)
  {
    FoldAppend(init, step, [x], ys);
    assert [x][..0] == [];
  }

  /** Induction over the loop: a property of the lines read so far and the
      state reached, kept by every step, holds from the `i`-th line on. */
  lemma {:induction false} FoldInductionFrom<S>(init: S, step: (S, string) -> S, inv: (seq<string>, S) -> bool,
                                                lines: seq<string>, i: nat, j: nat)
    requires i <= j <= |lines|
    requires inv(lines[..i], Fold(init, step, lines[..i]))
    requires forall ls: seq<string>, st: S, line: string :: inv(ls, st) ==> inv(ls + [line], step(st, line))
    ensures inv(lines[..j], Fold(init, step, lines[..j]))
  {
    if i < j {
      FoldInductionFrom(init, step, inv, lines, i, j - 1);
      FoldNext(init, step, lines, j - 1);
      assert lines[..j] == lines[..j - 1] + [lines[j - 1]];
    }
  }

  /** Induction over the whole loop, from the initial state. */
  lemma FoldInduction<S>(init: S, step: (S, string) -> S, inv: (seq<string>, S) -> bool, lines: seq<string>)
    requires inv([], init)
    requires forall ls: seq<string>, st: S, line: string :: inv(ls, st) ==> inv(ls + [line], step(st, line))
    ensures inv(lines, Fold(init, step, lines))
  {
    assert lines[..0] == [] && lines[..|lines|] == lines;
    FoldInductionFrom(init, step, inv, lines, 0, |lines|);
  }
}

/**
 * What a sequencer run depends on besides the configuration, and what it yields.
 *
 * The source's coroutines suspend on two kinds of input: `Random.Range` draws and the
 * participant's interactions with the current paper. Both are given up front: `rng` answers the
 * k-th draw, `events` lists the interaction events in the order they reach the papers. A run
 * reads them through a `Cursor` and reports where it stopped.
 */
module Runs {
  import opened Grabbable
  import opened Markers

  /** The exceptions a run can raise; each ends the coroutine chain where it happens. */
  datatype Crash =
    | EmptyColorList          // indexing an empty colour list
    | MappingNotInstalled     // indexing a null colour mapping
    | ColorNotMapped(color: string)  // a colour the mapping has no entry for
    | NoTrayName              // `Contains` on a null tray name

  /** How a run ends: it completes, it waits forever for an interaction that never comes, or it throws. */
  datatype Outcome = Finished | Waiting | Crashed(reason: Crash)

  /** The next random draw and the next unread interaction event. */
  datatype Cursor = Cursor(draw: nat, event: nat)

  datatype World = World(rng: nat -> nat, events: seq<PaperEvent>)

  /** The steps a run makes observable, how it ends, and where it leaves the inputs. */
  datatype Run = Run(steps: seq<Step>, outcome: Outcome, next: Cursor)

  /**
   * Unity's `Random.Range(0, n)` as the k-th draw: an index below `n`, or 0 (the lower bound)
   * when `n` is 0.
   */
  function RandomRange(rng: nat -> nat, k: nat, n: nat): (r: nat)
    ensures n > 0 ==> r < n
    ensures n == 0 ==> r == 0
  {
    if n == 0 then 0 else rng(k) % n
  }

  /** Regrouping appends to a log (the solver does not find this on its own in large contexts). */
  lemma AppendTwo<T>(log: seq<T>, a: seq<T>, b: seq<T>)
    ensures log + a + b == log + (a + b)
  {
  }

  lemma AppendThree<T>(log: seq<T>, a: seq<T>, b: seq<T>, c: seq<T>)
    ensures log + a + b + c == log + (a + b + c)
  {
  }

  lemma AppendFour<T>(log: seq<T>, a: T, b: T, c: T, d: T)
    ensures log + [a] + [b] + [c] + [d] == log + [a, b, c, d]
  {
  }
}

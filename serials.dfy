/** Sequence-level meaning of the column operations: removal at an index
    (`Vec::remove`) and the positional renumbering of serial cells that a
    removal from a serial column performs. */
module Serials {
  import opened Values

  /** `Vec::remove(i)`: the element at `i` is gone, the ones after it shift
      down by one place. */
  function RemoveAt<T>(s: seq<T>, i: nat): (r: seq<T>)
    requires i < |s|
    ensures |r| == |s| - 1
    ensures forall j :: 0 <= j < i ==> r[j] == s[j]
    ensures forall j :: i <= j < |r| ==> r[j] == s[j + 1]
  {
    s[..i] + s[i + 1..]
  }

  /** What the renumbering loop leaves at position `i`: a `Serial` cell is
      rewritten to its 1-based position, any other cell is kept. */
  function RenumberCell(v: Value, i: nat): Value
  {
    if v.Serial? then Serial(i + 1) else v
  }

  /** The renumbering of a whole sequence of cells. */
  function Renumbered(s: seq<Value>): (r: seq<Value>)
    ensures |r| == |s|
  {
    seq(|s|, i requires 0 <= i < |s| => RenumberCell(s[i], i))
  }

  /** The contiguity invariant of a serial column: `[Serial(1), ..., Serial(n)]`. */
  predicate IsSerialRun(s: seq<Value>)
  {
    forall i :: 0 <= i < |s| ==> s[i] == Serial(i + 1)
  }

  /** Renumbering keeps the length and the variant of every cell, keeps every
      non-`Serial` cell, and numbers every `Serial` cell by its position. */
  lemma RenumberedCells(s: seq<Value>)
    ensures |Renumbered(s)| == |s|
    ensures forall i :: 0 <= i < |s| ==> Renumbered(s)[i].Serial? == s[i].Serial?
    ensures forall i :: 0 <= i < |s| && !s[i].Serial? ==> Renumbered(s)[i] == s[i]
    ensures forall i :: 0 <= i < |s| && s[i].Serial? ==> Renumbered(s)[i] == Serial(i + 1)
  {
  }

  /** Renumbering twice is renumbering once. */
  lemma RenumberedIdempotent(s: seq<Value>)
    ensures Renumbered(Renumbered(s)) == Renumbered(s)
  {
  }

  /** A column holding only `Serial` cells is contiguous after renumbering,
      whatever numbers it held before. */
  lemma RenumberedAllSerial(s: seq<Value>)
    requires forall i :: 0 <= i < |s| ==> s[i].Serial?
    ensures IsSerialRun(Renumbered(s))
  {
  }

  /** A contiguous run is left as it is by renumbering. */
  lemma RenumberedRun(s: seq<Value>)
    requires IsSerialRun(s)
    ensures Renumbered(s) == s
  {
  }

  /** Appending the next counter value to a run of length n keeps it a run. */
  lemma AppendKeepsRun(s: seq<Value>)
    requires IsSerialRun(s)
    ensures IsSerialRun(s + [Serial(|s| + 1)])
  {
  }

  /** Removing any cell of a run and renumbering gives the run one shorter. */
  lemma RemoveKeepsRun(s: seq<Value>, i: nat)
    requires IsSerialRun(s) && i < |s|
    ensures IsSerialRun(Renumbered(RemoveAt(s, i)))
    ensures |Renumbered(RemoveAt(s, i))| == |s| - 1
  {
    RenumberedAllSerial(RemoveAt(s, i));
  }

  /** Removing the middle of `[1, 2, 3]` gives `[1, 2]`, not `[1, 3]`. */
  lemma RemoveMiddleOfThree()
    ensures Renumbered(RemoveAt([Serial(1), Serial(2), Serial(3)], 1)) == [Serial(1), Serial(2)]
  {
    var r := Renumbered(RemoveAt([Serial(1), Serial(2), Serial(3)], 1));
    assert r[0] == Serial(1) && r[1] == Serial(2);
  }
}

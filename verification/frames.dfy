/**
 * The slice of pandas DataFrame behaviour the system relies on: a time
 * index, named float columns, row selection, `tail`, `empty` and the OHLCV
 * column rename.
 */
module Frames {
  import opened Models

  datatype Frame = Frame(index: seq<Time>, cols: map<string, seq<Num>>)

  /** Every column has one value per index entry. */
  predicate WellFormed(f: Frame) {
    forall c :: c in f.cols ==> |f.cols[c]| == |f.index|
  }

  function Len(f: Frame): nat {
    |f.index|
  }

  /** `DataFrame.empty`: no rows or no columns. */
  predicate IsEmpty(f: Frame) {
    |f.index| == 0 || |f.cols| == 0
  }

  predicate HasColumns(f: Frame, names: seq<string>) {
    forall i :: 0 <= i < |names| ==> names[i] in f.cols
  }

  /** `s[idx]` for a list of positions, as numpy fancy indexing does it. */
  function Pick<T>(s: seq<T>, idx: seq<nat>): (r: seq<T>)
    requires forall j :: 0 <= j < |idx| ==> idx[j] < |s|
    ensures |r| == |idx|
    ensures forall j :: 0 <= j < |idx| ==> r[j] == s[idx[j]]
  {
    seq(|idx|, j requires 0 <= j < |idx| => s[idx[j]])
  }

  /** The rows at the given positions, in the given order. */
  function SelectRows(f: Frame, idx: seq<nat>): (r: Frame)
    requires WellFormed(f)
    requires forall j :: 0 <= j < |idx| ==> idx[j] < |f.index|
    ensures WellFormed(r) && Len(r) == |idx| && r.cols.Keys == f.cols.Keys
  {
    Frame(Pick(f.index, idx), map c | c in f.cols :: Pick(f.cols[c], idx))
  }

  /** The rows from position `start` on. */
  function Drop(f: Frame, start: nat): (r: Frame)
    requires WellFormed(f) && start <= Len(f)
    ensures WellFormed(r) && Len(r) == Len(f) - start && r.cols.Keys == f.cols.Keys
    ensures r.index == f.index[start..]
    ensures forall c :: c in r.cols ==> r.cols[c] == f.cols[c][start..]
  {
    Frame(f.index[start..], map c | c in f.cols :: f.cols[c][start..])
  }

  /** `df.tail(k)`: the last `min(k, len)` rows. */
  function Tail(f: Frame, k: nat): (r: Frame)
    requires WellFormed(f)
    ensures WellFormed(r) && r.cols.Keys == f.cols.Keys
    ensures Len(r) == if k < Len(f) then k else Len(f)
    ensures r.index == f.index[Len(f) - Len(r)..]
    ensures forall c :: c in r.cols ==> r.cols[c] == f.cols[c][Len(f) - Len(r)..]
  {
    Drop(f, if k < Len(f) then Len(f) - k else 0)
  }

  /** The column mapping `{'open': 'Open', 'high': 'High', 'low': 'Low', 'close': 'Close', 'volume': 'Volume'}`. */
  function RenameOne(c: string): string {
    if c == "open" then "Open"
    else if c == "high" then "High"
    else if c == "low" then "Low"
    else if c == "close" then "Close"
    else if c == "volume" then "Volume"
    else c
  }

  /** The column a renamed label takes its values from; a renamed lower-case column wins over a same-named one. */
  function RenameSource(cols: map<string, seq<Num>>, n: string): string {
    if n == "Open" && "open" in cols then "open"
    else if n == "High" && "high" in cols then "high"
    else if n == "Low" && "low" in cols then "low"
    else if n == "Close" && "close" in cols then "close"
    else if n == "Volume" && "volume" in cols then "volume"
    else n
  }

  /** A renamed label takes its values from the column it was renamed from. */
  lemma RenamedSource(cols: map<string, seq<Num>>, c: string)
    requires c in cols && RenameOne(c) != c
    ensures RenameSource(cols, RenameOne(c)) == c
  {
  }

  /** `df.rename(columns=mapping)` with the OHLCV mapping. */
  function RenameOhlcv(f: Frame): (r: Frame)
    ensures r.index == f.index
    ensures r.cols.Keys == set c | c in f.cols :: RenameOne(c)
    ensures WellFormed(f) ==> WellFormed(r)
    ensures forall c :: c in f.cols && RenameOne(c) != c ==> r.cols[RenameOne(c)] == f.cols[c]
  {
    var keys := set c | c in f.cols :: RenameOne(c);
    assert forall n :: n in keys ==> RenameSource(f.cols, n) in f.cols;
    var cols := map n | n in keys :: f.cols[RenameSource(f.cols, n)];
    assert forall c :: c in f.cols && RenameOne(c) != c ==> cols[RenameOne(c)] == f.cols[c] by {
      forall c | c in f.cols && RenameOne(c) != c
        ensures RenameOne(c) in cols && cols[RenameOne(c)] == f.cols[c]
      {
        assert RenameOne(c) in keys;
        RenamedSource(f.cols, c);
      }
    }
    Frame(f.index, cols)
  }

  /** The four price columns the chart checks. */
  predicate HasPrices(f: Frame) {
    "Open" in f.cols && "High" in f.cols && "Low" in f.cols && "Close" in f.cols
  }

  /** The five columns `Open`, `High`, `Low`, `Close`, `Volume`. */
  predicate HasOhlcv(f: Frame) {
    HasPrices(f) && "Volume" in f.cols
  }

  /**
   * A DataFrame object as a mutable handle: operations that pandas performs
   * `inplace=True` change `frame`, and every alias sees the change.
   */
  class FrameRef {
    var frame: Frame

    constructor (f: Frame)
      ensures frame == f
    {
      frame := f;
    }
  }
}

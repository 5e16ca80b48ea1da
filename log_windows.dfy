/** The byte windows of a log file that successive health checks examine, and
    the law that consecutive windows tile the file: no gap and no overlap. */
module LogWindows {

  /** The byte range [start, end) of the log file at `path` examined by one check. */
  datatype Window = Window(path: string, start: nat, end: nat)

  /** The windows `ws` are consecutive: the first starts at `from`, each one
      starts where the previous one ended, and the last ends at `to`. */
  predicate Tiles(from: nat, ws: seq<Window>, to: nat)
    decreases |ws|
  {
    if ws == [] then from == to else ws[0].start == from && Tiles(ws[0].end, ws[1..], to)
  }

  /** Total number of bytes the windows span, each counted as end - start. */
  function Span(ws: seq<Window>): int
    decreases |ws|
  {
    if ws == [] then 0 else (ws[0].end - ws[0].start) + Span(ws[1..])
  }

  /** A window that starts where a tiling ends extends the tiling. */
  lemma {:induction false} TilesSnoc(from: nat, ws: seq<Window>, to: nat, w: Window)
    requires Tiles(from, ws, to) && w.start == to
    ensures Tiles(from, ws + [w], w.end)
    decreases |ws|
  {
    if ws == [] {
      assert [w][1..] == [];
    } else {
      TilesSnoc(ws[0].end, ws[1..], to, w);
      assert (ws + [w])[1..] == ws[1..] + [w];
    }
  }

  /** Tiled windows together cover exactly the distance from the first offset
      to the last: every byte in between is examined once. */
  lemma {:induction false} TiledSpan(from: nat, ws: seq<Window>, to: nat)
    requires Tiles(from, ws, to)
    ensures Span(ws) == to - from
    decreases |ws|
  {
    if ws != [] {
      TiledSpan(ws[0].end, ws[1..], to);
    }
  }

  /** When the log only grows, tiled windows lie between the first and the
      last offset, in file order and pairwise disjoint. */
  lemma {:induction false} TiledInOrder(from: nat, ws: seq<Window>, to: nat)
    requires Tiles(from, ws, to)
    requires forall k | 0 <= k < |ws| :: ws[k].start <= ws[k].end
    ensures from <= to
    ensures forall k | 0 <= k < |ws| :: from <= ws[k].start && ws[k].end <= to
    ensures forall i, j | 0 <= i < j < |ws| :: ws[i].end <= ws[j].start
    decreases |ws|
  {
    if ws != [] {
      var rest := ws[1..];
      assert forall k | 0 <= k < |rest| :: rest[k] == ws[k + 1];
      TiledInOrder(ws[0].end, rest, to);
      forall k | 0 <= k < |ws|
        ensures from <= ws[k].start && ws[k].end <= to
      {
        if k > 0 {
          assert ws[k] == rest[k - 1];
        }
      }
      forall i, j | 0 <= i < j < |ws|
        ensures ws[i].end <= ws[j].start
      {
        assert ws[j] == rest[j - 1];
        if i > 0 {
          assert ws[i] == rest[i - 1];
        }
      }
    }
  }
}

/**
 Append-only ledgers with running balances: each line records what was booked on a key and the balance of
 that key afterwards.
 */
module Ledgers {
  datatype Line<K> = Line(key: K, delta: int, after: int)

  /** The opening value of a key plus everything booked on it. */
  function Total<K(==)>(opening: K -> int, lines: seq<Line<K>>, k: K): int {
    if lines == [] then opening(k)
    else Total(opening, lines[..|lines| - 1], k) + if lines[|lines| - 1].key == k then lines[|lines| - 1].delta else 0
  }

  /** Every line shows the running total of its key, and none is overdrawn. */
  ghost predicate Running<K(!new)>(opening: K -> int, lines: seq<Line<K>>) {
    forall n :: 0 <= n < |lines| ==>
      lines[n].after == Total(opening, lines[..n + 1], lines[n].key) && lines[n].after >= 0
  }

  lemma Post<K(!new)>(opening: K -> int, lines: seq<Line<K>>, line: Line<K>)
    requires Running(opening, lines)
    requires line.after == Total(opening, lines, line.key) + line.delta && line.after >= 0
    ensures Running(opening, lines + [line])
    ensures forall k :: Total(opening, lines + [line], k) == Total(opening, lines, k) + if line.key ==
            k then line.delta else 0
  {
    var all := lines + [line];
    assert all[..|all| - 1] == lines;
    forall n | 0 <= n < |all|
      ensures all[n].after == Total(opening, all[..n + 1], all[n].key) && all[n].after >= 0
    {
      if n < |lines| {
        assert all[..n + 1] == lines[..n + 1];
      } else {
        assert all[..n + 1] == all;
      }
    }
  }

  /** The balance shown by the last line of a key is its total. */
  lemma {:induction false} LastLineIsTotal<K(!new)>(opening: K -> int, lines: seq<Line<K>>, n: nat)
    requires Running(opening, lines) && n < |lines| && forall m :: n < m < |lines| ==> lines[m].key != lines[n].key
    ensures lines[n].after == Total(opening, lines, lines[n].key)
  {
    if n == |lines| - 1 {
      assert lines[..n + 1] == lines;
    } else {
      var init := lines[..|lines| - 1];
      forall m | 0 <= m < |init|
        ensures init[m].after == Total(opening, init[..m + 1], init[m].key)
      {
        assert init[..m + 1] == lines[..m + 1];
      }
      LastLineIsTotal(opening, init, n);
    }
  }
}

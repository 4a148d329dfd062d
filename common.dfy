/** Small shared vocabulary: an optional value and the concatenation of a
    sequence of sequences (JavaScript's "push every element of every list"). */
module Common {

  datatype Option<+T> = None | Some(value: T) {
    /** The value, or `default` when absent (JavaScript's `x || default` on an object slot). */
    function GetOr(default: T): T {
      if Some? then value else default
    }
  }

  /** Flattens `ss` one level, keeping the order of the inner sequences. */
  function Concat<T>(ss: seq<seq<T>>): seq<T>
  {
    if ss == [] then [] else Concat(ss[..|ss| - 1]) + ss[|ss| - 1]
  }

  lemma {:induction false} ConcatAppend<T>(ss: seq<seq<T>>, s: seq<T>)
    ensures Concat(ss + [s]) == Concat(ss) + s
  {
    assert (ss + [s])[..|ss|] == ss;
  }

  lemma {:induction false} ConcatSplit<T>(ss: seq<seq<T>>, tt: seq<seq<T>>)
    ensures Concat(ss + tt) == Concat(ss) + Concat(tt)
    decreases |tt|
  {
    if tt == [] {
      assert ss + tt == ss;
    } else {
      var init, last := tt[..|tt| - 1], tt[|tt| - 1];
      assert tt == init + [last];
      assert ss + tt == (ss + init) + [last];
      ConcatAppend(ss + init, last);
      ConcatSplit(ss, init);
      ConcatAppend(init, last);
    }
  }
}

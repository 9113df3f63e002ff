/** Histories of times under a clock that does not run backwards. */
module Times {

  predicate IsOrdered(ts: seq<nat>) {
    forall i, j :: 0 <= i <= j < |ts| ==> ts[i] <= ts[j]
  }

  lemma OrderedPrefix(front: seq<nat>, t: nat)
    ensures IsOrdered(front + [t]) <==> IsOrdered(front) && (front != [] ==> front[|front| - 1] <= t)
  {
    var ts := front + [t];
    if IsOrdered(ts) {
      forall i, j | 0 <= i <= j < |front|
        ensures front[i] <= front[j]
      {
        assert ts[i] <= ts[j];
      }
      assert front != [] ==> ts[|front| - 1] <= ts[|front|];
    }
  }
}

/** Counting facts about the visited-node set that both executors use to
    bound their traces and to show that each loop iteration makes progress. */
module Visits {

  /** A subset is no larger than its superset. */
  lemma SubsetCardinality(a: set<string>, b: set<string>)
    requires a <= b
    ensures |a| <= |b|
  {
    assert b == a + (b - a);
  }

  /** Visiting a node not yet visited leaves fewer unvisited nodes. */
  lemma UnvisitedShrinks(keys: set<string>, visited: set<string>, current: string)
    requires current in keys && current !in visited
    ensures |keys - (visited + {current})| < |keys - visited|
  {
    assert keys - (visited + {current}) == (keys - visited) - {current};
  }
}

/** How the solvers rank candidates: more output first, and among equals the
    allocation whose textual key is least. */
module Ranking {
  import Text

  datatype Candidate = Candidate(allocation: seq<nat>, value: nat)

  /** x is to be preferred to y. */
  predicate Beats(x: Candidate, y: Candidate) {
    x.value > y.value
    || (x.value == y.value && Text.Less(Text.AllocationKey(x.allocation), Text.AllocationKey(y.allocation)))
  }

  lemma BeatsIrreflexive(x: Candidate)
    ensures !Beats(x, x)
  {
    Text.LessIrreflexive(Text.AllocationKey(x.allocation));
  }

  lemma BeatsTransitive(x: Candidate, y: Candidate, z: Candidate)
    requires Beats(x, y) && Beats(y, z)
    ensures Beats(x, z)
  {
    if x.value == z.value {
      Text.LessTransitive(Text.AllocationKey(x.allocation), Text.AllocationKey(y.allocation), Text.AllocationKey(z.allocation));
    }
  }

  /** Distinct allocations of one length are never tied. */
  lemma BeatsTotal(x: Candidate, y: Candidate)
    requires |x.allocation| == |y.allocation| && x.allocation != y.allocation
    ensures Beats(x, y) || Beats(y, x)
  {
    Text.KeyLessTotal(x.allocation, y.allocation);
    Text.KeyOrder(x.allocation, y.allocation);
    Text.KeyOrder(y.allocation, x.allocation);
  }

  /** What does not beat y does not beat anything y does not beat. */
  lemma UnbeatenTransitive(x: Candidate, y: Candidate, z: Candidate)
    requires !Beats(x, y) && !Beats(y, z)
    ensures !Beats(x, z)
  {
    if Beats(x, z) {
      Text.LessTotal(Text.AllocationKey(x.allocation), Text.AllocationKey(y.allocation));
      Text.LessTotal(Text.AllocationKey(y.allocation), Text.AllocationKey(z.allocation));
      if x.value == y.value == z.value {
        Text.LessIrreflexive(Text.AllocationKey(x.allocation));
        if Text.AllocationKey(x.allocation) != Text.AllocationKey(y.allocation) {
          Text.LessTransitive(Text.AllocationKey(y.allocation), Text.AllocationKey(x.allocation), Text.AllocationKey(z.allocation));
        }
      }
    }
  }

  // ---------- ranking a list ----------

  function Insert(x: Candidate, s: seq<Candidate>): seq<Candidate> {
    if |s| == 0 || Beats(x, s[0]) then [x] + s else [s[0]] + Insert(x, s[1..])
  }

  /** Best first. */
  function Ranked(s: seq<Candidate>): seq<Candidate> {
    if |s| == 0 then [] else Insert(s[0], Ranked(s[1..]))
  }

  ghost predicate InOrder(s: seq<Candidate>) {
    forall i, j :: 0 <= i < j < |s| ==> !Beats(s[j], s[i])
  }

  lemma {:induction false} InsertKeepsOrder(x: Candidate, s: seq<Candidate>)
    requires InOrder(s)
    ensures InOrder(Insert(x, s)) && multiset(Insert(x, s)) == multiset{x} + multiset(s)
  {
    if |s| == 0 {
    } else if Beats(x, s[0]) {
      forall j | 0 <= j < |s| ensures !Beats(s[j], x) {
        if Beats(s[j], x) {
          BeatsTransitive(s[j], x, s[0]);
          BeatsIrreflexive(s[0]);
        }
      }
    } else {
      InsertKeepsOrder(x, s[1..]);
      var t := Insert(x, s[1..]);
      assert s == [s[0]] + s[1..];
      forall j | 0 <= j < |t| ensures !Beats(t[j], s[0]) {
        assert t[j] in multiset(t);
        if t[j] != x { var k :| 0 <= k < |s[1..]| && s[1..][k] == t[j]; assert s[k + 1] == t[j]; }
      }
    }
  }

  /** Ranking loses nothing and puts an unbeaten candidate first. */
  lemma {:induction false} RankedInOrder(s: seq<Candidate>)
    ensures InOrder(Ranked(s)) && multiset(Ranked(s)) == multiset(s)
  {
    if |s| > 0 {
      RankedInOrder(s[1..]);
      InsertKeepsOrder(s[0], Ranked(s[1..]));
      assert s == [s[0]] + s[1..];
    }
  }

  /** No two candidates with one allocation. */
  ghost predicate OneEach(s: seq<Candidate>) {
    forall i, j :: 0 <= i < j < |s| ==> s[i].allocation != s[j].allocation
  }

  lemma {:induction false} InsertKeepsEach(x: Candidate, s: seq<Candidate>)
    requires OneEach(s) && forall i :: 0 <= i < |s| ==> s[i].allocation != x.allocation
    ensures OneEach(Insert(x, s)) && multiset(Insert(x, s)) == multiset{x} + multiset(s)
  {
    if |s| > 0 && !Beats(x, s[0]) {
      InsertKeepsEach(x, s[1..]);
      var t := Insert(x, s[1..]);
      assert s == [s[0]] + s[1..];
      forall j | 0 <= j < |t| ensures t[j].allocation != s[0].allocation {
        assert t[j] in multiset(t);
        if t[j] != x { var k :| 0 <= k < |s[1..]| && s[1..][k] == t[j]; assert s[k + 1] == t[j]; }
      }
    }
  }

  /** Ranking keeps them apart. */
  lemma {:induction false} RankedDistinct(s: seq<Candidate>)
    requires OneEach(s)
    ensures OneEach(Ranked(s))
  {
    if |s| > 0 {
      RankedDistinct(s[1..]);
      RankedInOrder(s[1..]);
      var t := Ranked(s[1..]);
      forall j | 0 <= j < |t| ensures t[j].allocation != s[0].allocation {
        assert t[j] in multiset(t);
        var k :| 0 <= k < |s[1..]| && s[1..][k] == t[j];
        assert s[k + 1] == t[j];
      }
      InsertKeepsEach(s[0], t);
    }
  }
}

/** The textual fingerprint of a set of balance effects, and when two lists of
    effects have the same one. */
module Fingerprint {
  import opened Common
  import Text

  datatype Key = Key(chain: string, account: string, token: string)

  /** delta is missing when the caller supplied none. */
  datatype Effect = Effect(key: Key, delta: Option<int>)

  predicate KeyOk(k: Key) { k.chain != "" && k.account != "" && k.token != "" }

  predicate EffectOk(e: Effect) { KeyOk(e.key) && e.delta.Some? }

  predicate EffectsOk(es: seq<Effect>) { forall i :: 0 <= i < |es| ==> EffectOk(es[i]) }

  function Part(e: Effect): string
    requires e.delta.Some?
  {
    e.key.chain + "/" + (e.key.account + "/" + (e.key.token + "/" + Text.SignedDecimal(e.delta.value)))
  }

  function Parts(es: seq<Effect>): (ps: seq<string>)
    requires EffectsOk(es)
    ensures |ps| == |es|
  {
    if |es| == 0 then [] else Parts(es[..|es| - 1]) + [Part(es[|es| - 1])]
  }

  function InsertString(x: string, s: seq<string>): seq<string> {
    if |s| == 0 || Text.Less(x, s[0]) then [x] + s else [s[0]] + InsertString(x, s[1..])
  }

  function SortStrings(s: seq<string>): seq<string> {
    if |s| == 0 then [] else InsertString(s[0], SortStrings(s[1..]))
  }

  function JoinBars(s: seq<string>): string {
    if |s| == 0 then "" else if |s| == 1 then s[0] else s[0] + "|" + JoinBars(s[1..])
  }

  /** Sorted parts joined by bars; none if an effect is incomplete. */
  function FingerprintOf(es: seq<Effect>): Option<string> {
    if EffectsOk(es) then Some(JoinBars(SortStrings(Parts(es)))) else None
  }

  // ---------- splitting at separators ----------

  ghost predicate Free(s: string, c: char) { forall i :: 0 <= i < |s| ==> s[i] != c }

  /** Text before the first separator, and after it, is determined. */
  lemma {:induction false} SplitAt(u: string, v: string, s: string, t: string, c: char)
    requires Free(u, c) && Free(v, c) && u + [c] + s == v + [c] + t
    ensures u == v && s == t
  {
    assert (u + [c] + s)[0] == if |u| == 0 then c else u[0];
    assert (v + [c] + t)[0] == if |v| == 0 then c else v[0];
    if |u| == 0 {
      assert (u + [c] + s)[1..] == s && (v + [c] + t)[1..] == t;
    } else {
      assert (u + [c] + s)[1..] == u[1..] + [c] + s && (v + [c] + t)[1..] == v[1..] + [c] + t;
      SplitAt(u[1..], v[1..], s, t, c);
      assert u == [u[0]] + u[1..] && v == [v[0]] + v[1..];
    }
  }

  /** No identifier contains a separator. */
  ghost predicate Separable(e: Effect) {
    && EffectOk(e)
    && Free(e.key.chain, '/') && Free(e.key.account, '/') && Free(e.key.token, '/')
    && Free(e.key.chain, '|') && Free(e.key.account, '|') && Free(e.key.token, '|')
  }

  ghost predicate AllSeparable(es: seq<Effect>) { forall i :: 0 <= i < |es| ==> Separable(es[i]) }

  lemma PartInjective(x: Effect, y: Effect)
    requires Separable(x) && Separable(y) && Part(x) == Part(y)
    ensures x == y
  {
    var dx, dy := Text.SignedDecimal(x.delta.value), Text.SignedDecimal(y.delta.value);
    var tx, ty := x.key.token + "/" + dx, y.key.token + "/" + dy;
    var ax, ay := x.key.account + "/" + tx, y.key.account + "/" + ty;
    SplitAt(x.key.chain, y.key.chain, ax, ay, '/');
    SplitAt(x.key.account, y.key.account, tx, ty, '/');
    SplitAt(x.key.token, y.key.token, dx, dy, '/');
    Text.SignedDecimalInjective(x.delta.value, y.delta.value);
  }

  lemma PartHasNoBar(e: Effect)
    requires Separable(e)
    ensures Free(Part(e), '|') && |Part(e)| > 0
  {
  }

  ghost predicate AllFree(s: seq<string>) { forall i :: 0 <= i < |s| ==> Free(s[i], '|') && |s[i]| > 0 }

  lemma JoinHasBar(s: seq<string>)
    requires |s| > 1
    ensures !Free(JoinBars(s), '|')
  {
    assert (s[0] + "|" + JoinBars(s[1..]))[|s[0]|] == '|';
  }

  /** Joined text gives back the list. */
  lemma {:induction false} JoinInjective(s: seq<string>, t: seq<string>)
    requires AllFree(s) && AllFree(t) && JoinBars(s) == JoinBars(t)
    ensures s == t
  {
    if |s| > 1 { JoinHasBar(s); }
    if |t| > 1 { JoinHasBar(t); }
    if |s| > 1 && |t| > 1 {
      SplitAt(s[0], t[0], JoinBars(s[1..]), JoinBars(t[1..]), '|');
      JoinInjective(s[1..], t[1..]);
      assert s == [s[0]] + s[1..] && t == [t[0]] + t[1..];
    }
  }

  // ---------- sorting ----------

  ghost predicate Ordered(s: seq<string>) { forall i, j :: 0 <= i < j < |s| ==> !Text.Less(s[j], s[i]) }

  lemma {:induction false} InsertOrdered(x: string, s: seq<string>)
    requires Ordered(s)
    ensures Ordered(InsertString(x, s)) && multiset(InsertString(x, s)) == multiset{x} + multiset(s)
  {
    if |s| == 0 {
    } else if Text.Less(x, s[0]) {
      forall j | 0 <= j < |s| ensures !Text.Less(s[j], x) {
        if Text.Less(s[j], x) { Text.LessTransitive(s[j], x, s[0]); Text.LessIrreflexive(s[0]); }
      }
    } else {
      InsertOrdered(x, s[1..]);
      var t := InsertString(x, s[1..]);
      assert s == [s[0]] + s[1..];
      forall j | 0 <= j < |t| ensures !Text.Less(t[j], s[0]) {
        assert t[j] in multiset(t);
        if t[j] != x { var k :| 0 <= k < |s[1..]| && s[1..][k] == t[j]; assert s[k + 1] == t[j]; }
      }
    }
  }

  lemma {:induction false} SortOrdered(s: seq<string>)
    ensures Ordered(SortStrings(s)) && multiset(SortStrings(s)) == multiset(s)
  {
    if |s| > 0 {
      SortOrdered(s[1..]);
      InsertOrdered(s[0], SortStrings(s[1..]));
      assert s == [s[0]] + s[1..];
    }
  }

  /** A multiset of strings has one ordered listing. */
  lemma {:induction false} OrderedUnique(s: seq<string>, t: seq<string>)
    requires Ordered(s) && Ordered(t) && multiset(s) == multiset(t)
    ensures s == t
  {
    assert |multiset(s)| == |s| && |multiset(t)| == |t|;
    if |s| > 0 {
      FirstIsLeast(s, t);
      FirstIsLeast(t, s);
      Text.LessTotal(s[0], t[0]);
      assert s == [s[0]] + s[1..] && t == [t[0]] + t[1..];
      assert multiset(s[1..]) == multiset(s) - multiset{s[0]};
      assert multiset(t[1..]) == multiset(t) - multiset{t[0]};
      OrderedUnique(s[1..], t[1..]);
    }
  }

  lemma FirstIsLeast(s: seq<string>, t: seq<string>)
    requires Ordered(s) && multiset(s) == multiset(t) && |s| > 0 && |t| > 0
    ensures !Text.Less(t[0], s[0])
  {
    assert t[0] in multiset(s);
    var k :| 0 <= k < |s| && s[k] == t[0];
    if k == 0 { Text.LessIrreflexive(s[0]); }
  }

  // ---------- the fingerprint decides permutation ----------

  lemma {:induction false} PartsFree(es: seq<Effect>)
    requires EffectsOk(es) && AllSeparable(es)
    ensures AllFree(Parts(es))
  {
    if |es| > 0 {
      PartsFree(es[..|es| - 1]);
      PartHasNoBar(es[|es| - 1]);
    }
  }

  /** A part occurs as often as its effect. */
  lemma {:induction false} PartCount(es: seq<Effect>, e: Effect)
    requires EffectsOk(es) && AllSeparable(es) && Separable(e)
    ensures multiset(Parts(es))[Part(e)] == multiset(es)[e]
  {
    if |es| > 0 {
      var front, last := es[..|es| - 1], es[|es| - 1];
      PartCount(front, e);
      SamePart(last, e);
      CountLast(front, last, es, e);
      CountLast(Parts(front), Part(last), Parts(es), Part(e));
    }
  }

  lemma SamePart(x: Effect, y: Effect)
    requires Separable(x) && Separable(y)
    ensures Part(x) == Part(y) <==> x == y
  {
    if Part(x) == Part(y) { PartInjective(x, y); }
  }

  lemma CountLast<T>(front: seq<T>, last: T, all: seq<T>, x: T)
    requires all == front + [last]
    ensures multiset(all)[x] == multiset(front)[x] + if last == x then 1 else 0
  {
  }

  lemma {:induction false} PartComes(es: seq<Effect>, p: string) returns (e: Effect)
    requires EffectsOk(es) && p in multiset(Parts(es))
    ensures e in es && EffectOk(e) && Part(e) == p
  {
    var n := |es| - 1;
    if p == Part(es[n]) {
      e := es[n];
    } else {
      e := PartComes(es[..n], p);
    }
  }

  lemma PartsDecide(x: seq<Effect>, y: seq<Effect>)
    requires EffectsOk(x) && AllSeparable(x) && EffectsOk(y) && AllSeparable(y)
    ensures multiset(Parts(x)) == multiset(Parts(y)) <==> multiset(x) == multiset(y)
  {
    if multiset(Parts(x)) == multiset(Parts(y)) {
      forall e ensures multiset(x)[e] == multiset(y)[e] {
        if e in x || e in y { PartCount(x, e); PartCount(y, e); }
      }
    }
    if multiset(x) == multiset(y) {
      forall p ensures multiset(Parts(x))[p] == multiset(Parts(y))[p] {
        if p in multiset(Parts(x)) { var e := PartComes(x, p); PartCount(x, e); PartCount(y, e); }
        if p in multiset(Parts(y)) { var e := PartComes(y, p); PartCount(x, e); PartCount(y, e); }
      }
    }
  }

  /** Over identifiers without separators, two lists of effects have the same
      fingerprint exactly when one is a permutation of the other. */
  lemma FingerprintDecidesPermutation(x: seq<Effect>, y: seq<Effect>)
    requires EffectsOk(x) && AllSeparable(x) && EffectsOk(y) && AllSeparable(y)
    ensures FingerprintOf(x) == FingerprintOf(y) <==> multiset(x) == multiset(y)
  {
    var s, t := SortStrings(Parts(x)), SortStrings(Parts(y));
    SortOrdered(Parts(x));
    SortOrdered(Parts(y));
    PartsFree(x);
    PartsFree(y);
    PartsDecide(x, y);
    SortedFree(Parts(x));
    SortedFree(Parts(y));
    if FingerprintOf(x) == FingerprintOf(y) { JoinInjective(s, t); }
    if multiset(x) == multiset(y) { OrderedUnique(s, t); }
  }

  lemma SortedFree(ps: seq<string>)
    requires AllFree(ps)
    ensures AllFree(SortStrings(ps))
  {
    SortOrdered(ps);
    var s := SortStrings(ps);
    forall i | 0 <= i < |s| ensures Free(s[i], '|') && |s[i]| > 0 {
      assert s[i] in multiset(ps);
      var k :| 0 <= k < |ps| && ps[k] == s[i];
    }
  }

  /** With separators in identifiers, different effects can share one. */
  lemma SeparatorsCollide(delta: int)
    ensures var x := [Effect(Key("a/b", "c", "t"), Some(delta))];
            var y := [Effect(Key("a", "b/c", "t"), Some(delta))];
            FingerprintOf(x) == FingerprintOf(y) && multiset(x) != multiset(y)
  {
    var e, f := Effect(Key("a/b", "c", "t"), Some(delta)), Effect(Key("a", "b/c", "t"), Some(delta));
    var d := Text.SignedDecimal(delta);
    assert Part(e) == "a/b" + "/" + ("c" + "/" + ("t" + "/" + d)) == "a/b/c/t/" + d;
    assert Part(f) == "a" + "/" + ("b/c" + "/" + ("t" + "/" + d)) == "a/b/c/t/" + d;
    assert Parts([e]) == [Part(e)] && Parts([f]) == [Part(f)];
    assert e.key.chain != f.key.chain;
    assert e in multiset([e]) && e !in multiset([f]);
  }
}

/**
 Choosing among scored candidates, with a preference for the choice already made: the current
 choice stays while it is young or the best is not clearly better.
 */
module Utility {
  import opened Bytes

  datatype Candidate<T> = Candidate(valid: bool, value: T, score: int)

  datatype Site<T> = Unset | Holding(value: T, score: int, age: int)

  // Candidate `i` is the first of the best-scored valid ones.
  predicate IsFirstBest<T>(cs: seq<Candidate<T>>, i: nat)
  {
    && i < |cs| && cs[i].valid
    && (forall j | 0 <= j < |cs| && cs[j].valid :: cs[j].score <= cs[i].score)
    && (forall j | 0 <= j < i && cs[j].valid :: cs[j].score < cs[i].score)
  }

  function Top<T>(cs: seq<Candidate<T>>): Option<Candidate<T>>
  {
    if cs == [] then None
    else
      var front, last := Top(cs[..|cs| - 1]), cs[|cs| - 1];
      if last.valid && (front.None? || last.score > front.value.score) then Some(last) else front
  }

  lemma {:induction false} TopIsFirstBest<T>(cs: seq<Candidate<T>>) returns (i: nat)
    ensures Top(cs).None? ==> forall c <- cs :: !c.valid
    ensures Top(cs).Some? ==> IsFirstBest(cs, i) && Top(cs) == Some(cs[i])
  {
    if cs == [] {
      i := 0;
    } else {
      var n := |cs| - 1;
      i := TopIsFirstBest(cs[..n]);
      assert forall j | 0 <= j < n :: cs[..n][j] == cs[j];
      assert forall c <- cs :: c in cs[..n] || c == cs[n];
      if cs[n].valid && (Top(cs[..n]).None? || cs[n].score > Top(cs[..n]).value.score) {
        forall j | 0 <= j < n && cs[j].valid ensures cs[j].score < cs[n].score { assert cs[..n][j] in cs[..n]; }
        i := n;
      }
    }
  }

  // Only one candidate can be the first best.
  lemma FirstBestUnique<T>(cs: seq<Candidate<T>>, i: nat, j: nat)
    requires IsFirstBest(cs, i) && IsFirstBest(cs, j)
    ensures i == j
  {}

  lemma TopOf<T>(cs: seq<Candidate<T>>, i: nat)
    requires IsFirstBest(cs, i)
    ensures Top(cs) == Some(cs[i])
  {
    var k := TopIsFirstBest(cs);
    assert cs[i] in cs;
    if Top(cs).Some? { FirstBestUnique(cs, i, k); }
  }

  lemma {:induction false} TopOfNone<T>(cs: seq<Candidate<T>>)
    requires forall c <- cs :: !c.valid
    ensures Top(cs).None?
  {
    if cs != [] {
      assert cs[|cs| - 1] in cs && forall c <- cs[..|cs| - 1] :: c in cs;
      TopOfNone(cs[..|cs| - 1]);
    }
  }

  function Best<T>(cs: seq<Candidate<T>>, other: T): Candidate<T>
  {
    if Top(cs).Some? then Top(cs).value else Candidate(true, other, 0)
  }

  predicate Offered<T(==)>(cs: seq<Candidate<T>>, value: T)
  {
    exists c <- cs :: c.valid && c.value == value
  }

  predicate Held<T(==)>(site: Site<T>, hysteresis: int, minCommit: int, cs: seq<Candidate<T>>, best: Candidate<T>)
  {
    site.Holding? && Offered(cs, site.value) && (site.age < minCommit || best.score <= site.score + hysteresis)
  }

  function Settle<T(==)>(site: Site<T>, next: Candidate<T>): Site<T>
  {
    if site.Holding? && site.value == next.value then Holding(site.value, next.score, site.age + 1)
        else Holding(next.value, next.score, 1)
  }

  function Choose<T(==)>(site: Site<T>, hysteresis: int, minCommit: int, cs: seq<Candidate<T>>, other: T): (T, Site<T>)
  {
    var best := Best(cs, other);
    var next := if Held(site, hysteresis, minCommit, cs, best) then Candidate(true, site.value, site.score) else best;
    (next.value, Settle(site, next))
  }

  // ------------------------------------------------------------------------- the loops

  lemma TopSnoc<T>(cs: seq<Candidate<T>>, c: Candidate<T>)
    ensures Top(cs + [c]) == if c.valid && (Top(cs).None? || c.score > Top(cs).value.score) then Some(c) else Top(cs)
  {
    assert (cs + [c])[..|cs|] == cs;
  }

  method FindOffered<T(==)>(cs: seq<Candidate<T>>, value: T) returns (found: bool)
    ensures found == Offered(cs, value)
  {
    for i := 0 to |cs|
      invariant forall j | 0 <= j < i :: !(cs[j].valid && cs[j].value == value)
    {
      if cs[i].valid && cs[i].value == value {
        assert cs[i] in cs;
        return true;
      }
    }
    return false;
  }

  // The generated selector that scans all candidates.
  method SelectScalar<T(==)>(site: Site<T>, hysteresis: int, minCommit: int, cs: seq<Candidate<T>>, other: T)
      returns (value: T, site': Site<T>)
    ensures (value, site') == Choose(site, hysteresis, minCommit, cs, other)
  {
    var next := Candidate(false, other, 0);
    for i := 0 to |cs|
      invariant if Top(cs[..i]).Some? then next == Top(cs[..i]).value && next.valid else !next.valid
    {
      assert cs[..i + 1] == cs[..i] + [cs[i]];
      TopSnoc(cs[..i], cs[i]);
      TopValid(cs[..i + 1]);
      if cs[i].valid && (!next.valid || cs[i].score > next.score) {
        next := cs[i];
      }
    }
    assert cs[..|cs|] == cs;
    if !next.valid {
      next := Candidate(true, other, 0);
    }
    next := Hold(site, hysteresis, minCommit, cs, next);
    return next.value, Settle(site, next);
  }

  lemma TopValid<T>(cs: seq<Candidate<T>>)
    ensures Top(cs).Some? ==> Top(cs).value.valid
  {
    var i := TopIsFirstBest(cs);
  }

  method Hold<T(==)>(site: Site<T>, hysteresis: int, minCommit: int, cs: seq<Candidate<T>>, best: Candidate<T>)
      returns (next: Candidate<T>)
    ensures next == if Held(site, hysteresis, minCommit, cs, best) then Candidate(true, site.value, site.score)
            else best
  {
    next := best;
    if site.Holding? {
      var stillValid := FindOffered(cs, site.value);
      if stillValid && (site.age < minCommit || best.score <= site.score + hysteresis) {
        next := Candidate(true, site.value, site.score);
      }
    }
  }

  // The generated selector that first collects the valid candidates.
  method SelectAny<T(==)>(site: Site<T>, hysteresis: int, minCommit: int, cs: seq<Candidate<T>>, other: T)
      returns (value: T, site': Site<T>)
    ensures (value, site') == Choose(site, hysteresis, minCommit, cs, other)
  {
    var valid: seq<Candidate<T>> := [];
    for i := 0 to |cs|
      invariant valid == Valids(cs[..i])
    {
      assert cs[..i + 1][..i] == cs[..i];
      if cs[i].valid { valid := valid + [cs[i]]; }
    }
    assert cs[..|cs|] == cs;
    var next := Candidate(true, other, 0);
    if |valid| > 0 {
      next := valid[0];
      assert valid[..1] == [valid[0]] && [valid[0]][..0] == [];
      AllValid(cs);
      for i := 1 to |valid|
        invariant Top(valid[..i]) == Some(next)
      {
        assert valid[..i + 1] == valid[..i] + [valid[i]];
        TopSnoc(valid[..i], valid[i]);
        if valid[i].score > next.score { next := valid[i]; }
      }
      assert valid[..|valid|] == valid;
    }
    TopOfValids(cs);
    OfferedValids(cs);
    next := Hold(site, hysteresis, minCommit, valid, next);
    return next.value, Settle(site, next);
  }

  function Valids<T>(cs: seq<Candidate<T>>): seq<Candidate<T>>
  {
    if cs == [] then [] else Valids(cs[..|cs| - 1]) + if cs[|cs| - 1].valid then [cs[|cs| - 1]] else []
  }

  lemma {:induction false} AllValid<T>(cs: seq<Candidate<T>>)
    ensures forall i | 0 <= i < |Valids(cs)| :: Valids(cs)[i].valid
  {
    if cs != [] { AllValid(cs[..|cs| - 1]); }
  }

  lemma {:induction false} TopOfValids<T>(cs: seq<Candidate<T>>)
    ensures Top(Valids(cs)) == Top(cs) && (Valids(cs) == [] <==> Top(cs).None?)
  {
    if cs != [] {
      var front, last := cs[..|cs| - 1], cs[|cs| - 1];
      TopOfValids(front);
      if last.valid { TopSnoc(Valids(front), last); } else { assert Valids(cs) == Valids(front); }
    }
  }

  lemma {:induction false} OfferedValids<T>(cs: seq<Candidate<T>>)
    ensures forall value: T :: Offered(Valids(cs), value) == Offered(cs, value)
  {
    forall c ensures c in Valids(cs) <==> c in cs && c.valid { InValids(cs, c); }
  }

  lemma {:induction false} InValids<T>(cs: seq<Candidate<T>>, c: Candidate<T>)
    ensures c in Valids(cs) <==> c in cs && c.valid
  {
    if cs != [] {
      InValids(cs[..|cs| - 1], c);
      assert cs == cs[..|cs| - 1] + [cs[|cs| - 1]];
    }
  }
}

/** Session-affinity replica choice: rendezvous ranking with bounded load. */
module Router {

  datatype Replica = Replica(id: string, load: nat)

  const BALANCE := 1.25
  const SPARE := 2.0

  /** A replica's score for the request's session key; bytes compare as numbers of a fixed width. */
  type Score = string -> nat

  function Insert(ranked: seq<Replica>, r: Replica, score: Score): seq<Replica> {
    if ranked == [] || score(ranked[|ranked| - 1].id) >= score(r.id) then ranked + [r]
    else Insert(ranked[..|ranked| - 1], r, score) + [ranked[|ranked| - 1]]
  }

  /** Highest score first; equal scores stay in the candidates' order. */
  function Ranked(rs: seq<Replica>, score: Score): seq<Replica> {
    if rs == [] then [] else Insert(Ranked(rs[..|rs| - 1], score), rs[|rs| - 1], score)
  }

  function Load(rs: seq<Replica>): nat { if rs == [] then 0 else Load(rs[..|rs| - 1]) + rs[|rs| - 1].load }

  function Limit(rs: seq<Replica>): real
    requires rs != []
  {
    BALANCE * (Load(rs) as real / |rs| as real) + SPARE
  }

  function Where(rs: seq<Replica>, limit: real, within: bool): seq<Replica> {
    if rs == [] then [] else
      Where(rs[..|rs| - 1], limit, within) + if (rs[|rs| - 1].load as real <= limit) == within then [rs[|rs| - 1]] else []
  }

  /** The replicas to try, in order: by rank, those over the load limit last. */
  function Choose(rs: seq<Replica>, score: Score): seq<Replica>
    requires rs != []
  {
    var ranked := Ranked(rs, score);
    Where(ranked, Limit(rs), true) + Where(ranked, Limit(rs), false)
  }

  // --- Every candidate, once ---

  lemma {:induction false} InsertKeeps(ranked: seq<Replica>, r: Replica, score: Score)
    ensures multiset(Insert(ranked, r, score)) == multiset(ranked) + multiset{r}
  {
    if ranked != [] && score(ranked[|ranked| - 1].id) < score(r.id) {
      InsertKeeps(ranked[..|ranked| - 1], r, score);
      assert ranked == ranked[..|ranked| - 1] + [ranked[|ranked| - 1]];
    }
  }

  lemma {:induction false} RankedKeeps(rs: seq<Replica>, score: Score)
    ensures multiset(Ranked(rs, score)) == multiset(rs)
  {
    if rs != [] {
      RankedKeeps(rs[..|rs| - 1], score);
      InsertKeeps(Ranked(rs[..|rs| - 1], score), rs[|rs| - 1], score);
      assert rs == rs[..|rs| - 1] + [rs[|rs| - 1]];
    }
  }

  lemma {:induction false} WhereIn(rs: seq<Replica>, limit: real, within: bool)
    ensures forall r :: r in Where(rs, limit, within) <==> r in rs && (r.load as real <= limit) == within
  {
    if rs != [] {
      WhereIn(rs[..|rs| - 1], limit, within);
      assert rs == rs[..|rs| - 1] + [rs[|rs| - 1]];
    }
  }

  lemma {:induction false} WhereSplits(rs: seq<Replica>, limit: real)
    ensures multiset(Where(rs, limit, true)) + multiset(Where(rs, limit, false)) == multiset(rs)
  {
    if rs != [] {
      var head, last := rs[..|rs| - 1], rs[|rs| - 1];
      WhereSplits(head, limit);
      assert rs == head + [last];
      assert multiset(rs) == multiset(head) + multiset{last};
      if last.load as real <= limit {
        assert Where(rs, limit, false) == Where(head, limit, false);
      } else {
        assert Where(rs, limit, true) == Where(head, limit, true);
      }
    }
  }

  lemma ChoosePermutes(rs: seq<Replica>, score: Score)
    requires rs != []
    ensures multiset(Choose(rs, score)) == multiset(rs)
  {
    RankedKeeps(rs, score);
    WhereSplits(Ranked(rs, score), Limit(rs));
  }

  // --- The first choice is never over the limit ---

  lemma OneMore(n: nat, mean: real)
    ensures (n + 1) as real * mean == n as real * mean + mean
  {
  }

  lemma {:induction false} LoadAbove(rs: seq<Replica>, mean: real)
    requires rs != [] && forall i :: 0 <= i < |rs| ==> rs[i].load as real > mean
    ensures Load(rs) as real > |rs| as real * mean
  {
    var head, last := rs[..|rs| - 1], rs[|rs| - 1];
    OneMore(|head|, mean);
    if head != [] {
      LoadAbove(head, mean);
    }
  }

  lemma MeanTimes(total: real, n: real)
    requires n > 0.0
    ensures n * (total / n) == total
  {
  }

  /** Some load is at most the mean. */
  lemma SomeBelow(rs: seq<Replica>) returns (r: Replica)
    requires rs != []
    ensures r in rs && r.load as real <= Load(rs) as real / |rs| as real
  {
    var mean := Load(rs) as real / |rs| as real;
    MeanTimes(Load(rs) as real, |rs| as real);
    if forall i :: 0 <= i < |rs| ==> rs[i].load as real > mean {
      LoadAbove(rs, mean);
      assert false;
    }
    var i :| 0 <= i < |rs| && !(rs[i].load as real > mean);
    r := rs[i];
  }

  /** The first choice's load is at most a quarter over the mean, and two. */
  lemma FirstWithin(rs: seq<Replica>, score: Score)
    requires rs != []
    ensures Choose(rs, score) != [] && Choose(rs, score)[0].load as real <= 1.25 * (Load(rs) as real / |rs| as real) + 2.0
  {
    var r := SomeBelow(rs);
    var ranked := Ranked(rs, score);
    RankedKeeps(rs, score);
    assert r in multiset(ranked);
    WhereIn(ranked, Limit(rs), true);
    FirstOf(Where(ranked, Limit(rs), true), Where(ranked, Limit(rs), false), r);
  }

  lemma FirstOf(xs: seq<Replica>, ys: seq<Replica>, r: Replica)
    requires r in xs
    ensures (xs + ys)[0] in xs
  {
  }

  // --- A removal reorders nothing ---

  function Without(rs: seq<Replica>, id: string): seq<Replica> {
    if rs == [] then [] else Without(rs[..|rs| - 1], id) + if rs[|rs| - 1].id == id then [] else [rs[|rs| - 1]]
  }

  ghost predicate Falls(rs: seq<Replica>, score: Score) {
    forall i, j :: 0 <= i < j < |rs| ==> score(rs[i].id) >= score(rs[j].id)
  }

  lemma {:induction false} InsertFalls(ranked: seq<Replica>, r: Replica, score: Score)
    requires Falls(ranked, score)
    ensures Falls(Insert(ranked, r, score), score)
  {
    if ranked != [] && score(ranked[|ranked| - 1].id) < score(r.id) {
      var head := ranked[..|ranked| - 1];
      InsertFalls(head, r, score);
      InsertKeeps(head, r, score);
      var inserted := Insert(head, r, score);
      forall i | 0 <= i < |inserted|
        ensures score(inserted[i].id) >= score(ranked[|ranked| - 1].id)
      {
        assert inserted[i] in multiset(inserted);
        if inserted[i] != r {
          assert inserted[i] in head;
        }
      }
    }
  }

  lemma {:induction false} RankedFalls(rs: seq<Replica>, score: Score)
    ensures Falls(Ranked(rs, score), score)
  {
    if rs != [] {
      RankedFalls(rs[..|rs| - 1], score);
      InsertFalls(Ranked(rs[..|rs| - 1], score), rs[|rs| - 1], score);
    }
  }

  lemma WithoutLast(rs: seq<Replica>, r: Replica, id: string)
    ensures Without(rs + [r], id) == Without(rs, id) + if r.id == id then [] else [r]
  {
    assert (rs + [r])[..|rs|] == rs;
  }

  lemma {:induction false} WithoutIn(rs: seq<Replica>, id: string)
    ensures forall r :: r in Without(rs, id) <==> r in rs && r.id != id
  {
    if rs != [] {
      WithoutIn(rs[..|rs| - 1], id);
      assert rs == rs[..|rs| - 1] + [rs[|rs| - 1]];
    }
  }

  /** Inserting past the end of what ranks no lower is appending. */
  lemma InsertLast(ranked: seq<Replica>, r: Replica, score: Score)
    requires forall x :: x in ranked ==> score(x.id) >= score(r.id)
    ensures Insert(ranked, r, score) == ranked + [r]
  {
    if ranked != [] {
      assert ranked[|ranked| - 1] in ranked;
    }
  }

  lemma InsertWithoutEnd(ranked: seq<Replica>, r: Replica, score: Score, id: string)
    requires Falls(ranked, score) && (ranked != [] ==> score(ranked[|ranked| - 1].id) >= score(r.id))
    ensures Without(Insert(ranked, r, score), id) == if r.id == id then Without(ranked, id) else Insert(Without(ranked, id), r, score)
  {
    WithoutLast(ranked, r, id);
    WithoutIn(ranked, id);
    InsertLast(Without(ranked, id), r, score);
  }

  lemma InsertWithoutStep(head: seq<Replica>, last: Replica, r: Replica, score: Score, id: string)
    requires score(last.id) < score(r.id)
    requires Without(Insert(head, r, score), id) == if r.id == id then Without(head, id) else Insert(Without(head, id), r, score)
    ensures Without(Insert(head + [last], r, score), id) ==
              if r.id == id then Without(head + [last], id) else Insert(Without(head + [last], id), r, score)
  {
    var inserted, rest := Insert(head, r, score), Without(head, id);
    InsertBefore(head, last, r, score);
    WithoutLast(inserted, last, id);
    WithoutLast(head, last, id);
    var tail := if last.id == id then [] else [last];
    if r.id != id {
      if last.id == id {
        assert rest + tail == rest && Insert(rest, r, score) + tail == Insert(rest, r, score);
      } else {
        InsertBefore(rest, last, r, score);
      }
    }
  }

  lemma InsertWithoutLast(ranked: seq<Replica>, r: Replica, score: Score, id: string)
    requires ranked != [] && score(ranked[|ranked| - 1].id) < score(r.id)
    requires var head := ranked[..|ranked| - 1];
             Without(Insert(head, r, score), id) == if r.id == id then Without(head, id) else Insert(Without(head, id), r, score)
    ensures Without(Insert(ranked, r, score), id) == if r.id == id then Without(ranked, id) else Insert(Without(ranked, id), r, score)
  {
    InsertWithoutStep(ranked[..|ranked| - 1], ranked[|ranked| - 1], r, score, id);
    assert ranked == ranked[..|ranked| - 1] + [ranked[|ranked| - 1]];
  }

  lemma {:induction false} InsertWithout(ranked: seq<Replica>, r: Replica, score: Score, id: string)
    requires Falls(ranked, score)
    ensures Without(Insert(ranked, r, score), id) == if r.id == id then Without(ranked, id) else Insert(Without(ranked, id), r, score)
  {
    if ranked == [] || score(ranked[|ranked| - 1].id) >= score(r.id) {
      InsertWithoutEnd(ranked, r, score, id);
    } else {
      InsertWithout(ranked[..|ranked| - 1], r, score, id);
      InsertWithoutLast(ranked, r, score, id);
    }
  }

  lemma InsertBefore(ranked: seq<Replica>, last: Replica, r: Replica, score: Score)
    requires score(last.id) < score(r.id)
    ensures Insert(ranked + [last], r, score) == Insert(ranked, r, score) + [last]
  {
    assert (ranked + [last])[..|ranked|] == ranked;
  }

  lemma RankedLast(rs: seq<Replica>, r: Replica, score: Score)
    ensures Ranked(rs + [r], score) == Insert(Ranked(rs, score), r, score)
  {
    assert (rs + [r])[..|rs|] == rs;
  }

  lemma RankedWithoutStep(head: seq<Replica>, last: Replica, score: Score, id: string)
    requires Ranked(Without(head, id), score) == Without(Ranked(head, score), id)
    ensures Ranked(Without(head + [last], id), score) == Without(Ranked(head + [last], score), id)
  {
    RankedFalls(head, score);
    InsertWithout(Ranked(head, score), last, score, id);
    RankedLast(head, last, score);
    WithoutLast(head, last, id);
    RankedLast(Without(head, id), last, score);
    assert Without(head, id) + [] == Without(head, id);
  }

  /** Ranking commutes with removing a replica: the others keep their order. */
  lemma {:induction false} RankedWithout(rs: seq<Replica>, score: Score, id: string)
    ensures Ranked(Without(rs, id), score) == Without(Ranked(rs, score), id)
  {
    if rs != [] {
      RankedWithout(rs[..|rs| - 1], score, id);
      RankedWithoutStep(rs[..|rs| - 1], rs[|rs| - 1], score, id);
      assert rs == rs[..|rs| - 1] + [rs[|rs| - 1]];
    }
  }

  // --- The candidates' order doesn't matter ---

  ghost predicate Distinct(rs: seq<Replica>, score: Score) {
    forall i, j :: 0 <= i < j < |rs| ==> score(rs[i].id) != score(rs[j].id)
  }

  lemma SameSize(xs: seq<Replica>, ys: seq<Replica>)
    requires multiset(xs) == multiset(ys)
    ensures |xs| == |ys|
  {
    assert |multiset(xs)| == |xs| && |multiset(ys)| == |ys|;
  }

  lemma DropLast(xs: seq<Replica>)
    requires xs != []
    ensures multiset(xs[..|xs| - 1]) == multiset(xs) - multiset{xs[|xs| - 1]}
  {
    assert xs == xs[..|xs| - 1] + [xs[|xs| - 1]];
  }

  lemma {:induction false} FallingIs(xs: seq<Replica>, ys: seq<Replica>, score: Score)
    requires Falls(xs, score) && Falls(ys, score) && Distinct(xs, score) && multiset(xs) == multiset(ys)
    ensures xs == ys
    decreases |xs|
  {
    SameSize(xs, ys);
    if |xs| > 0 {
      var n := |xs| - 1;
      LowestLast(xs, ys, score);
      var x, y := xs[..n], ys[..n];
      FallingHeads(xs, ys, x, y, score);
      FallingIs(x, y, score);
      assert xs == x + [xs[n]] && ys == y + [ys[n]];
    }
  }

  lemma FallingHeads(xs: seq<Replica>, ys: seq<Replica>, x: seq<Replica>, y: seq<Replica>, score: Score)
    requires |xs| == |ys| > 0 && x == xs[..|xs| - 1] && y == ys[..|ys| - 1] && xs[|xs| - 1] == ys[|ys| - 1]
    requires Falls(xs, score) && Falls(ys, score) && Distinct(xs, score) && multiset(xs) == multiset(ys)
    ensures Falls(x, score) && Falls(y, score) && Distinct(x, score) && multiset(x) == multiset(y)
  {
    DropLast(xs);
    DropLast(ys);
  }

  lemma LowestLast(xs: seq<Replica>, ys: seq<Replica>, score: Score)
    requires Falls(xs, score) && Falls(ys, score) && Distinct(xs, score) && multiset(xs) == multiset(ys) && |xs| == |ys| > 0
    ensures xs[|xs| - 1] == ys[|ys| - 1]
  {
    var x, y := xs[|xs| - 1], ys[|ys| - 1];
    assert x in multiset(xs) && y in multiset(ys);
    var i :| 0 <= i < |xs| && xs[i] == y;
    var j :| 0 <= j < |ys| && ys[j] == x;
    assert score(y.id) >= score(x.id) && score(x.id) >= score(y.id);
  }

  /** Where scores differ, a session's ranking depends on which replicas there are, not on the order they are listed in. */
  lemma RankedByScore(rs: seq<Replica>, rs': seq<Replica>, score: Score)
    requires multiset(rs) == multiset(rs') && Distinct(Ranked(rs, score), score)
    ensures Ranked(rs, score) == Ranked(rs', score)
  {
    RankedKeeps(rs, score);
    RankedKeeps(rs', score);
    RankedFalls(rs, score);
    RankedFalls(rs', score);
    FallingIs(Ranked(rs, score), Ranked(rs', score), score);
  }

  // --- What the choice is ---

  /** A quarter over the mean load, and two. */
  predicate Within(rs: seq<Replica>, r: Replica)
    requires rs != []
  {
    r.load as real <= 1.25 * (Load(rs) as real / |rs| as real) + 2.0
  }

  /** The replicas within the limit come first, and on either side of it scores fall. */
  ghost predicate InOrder(rs: seq<Replica>, chosen: seq<Replica>, score: Score)
    requires rs != []
  {
    forall i, j :: 0 <= i < j < |chosen| ==>
      if Within(rs, chosen[i]) == Within(rs, chosen[j]) then score(chosen[i].id) >= score(chosen[j].id) else Within(rs, chosen[i])
  }

  lemma {:induction false} WhereFalls(rs: seq<Replica>, score: Score, limit: real, within: bool)
    requires Falls(rs, score)
    ensures Falls(Where(rs, limit, within), score)
  {
    if rs != [] {
      var head, last := rs[..|rs| - 1], rs[|rs| - 1];
      WhereFalls(head, score, limit, within);
      WhereIn(head, limit, within);
      forall r | r in Where(head, limit, within)
        ensures score(r.id) >= score(last.id)
      {
        var i :| 0 <= i < |head| && head[i] == r;
      }
    }
  }

  /** The limit is a quarter over the candidates' mean load and two; candidates within it are tried before those over it, and
      each side in falling order of score. */
  lemma ChosenInOrder(rs: seq<Replica>, score: Score)
    requires rs != []
    ensures InOrder(rs, Choose(rs, score), score)
  {
    var ranked, limit := Ranked(rs, score), Limit(rs);
    RankedFalls(rs, score);
    WhereFalls(ranked, score, limit, true);
    WhereFalls(ranked, score, limit, false);
    WhereIn(ranked, limit, true);
    WhereIn(ranked, limit, false);
    SidesInOrder(rs, Where(ranked, limit, true), Where(ranked, limit, false), score);
  }

  lemma SidesInOrder(rs: seq<Replica>, xs: seq<Replica>, ys: seq<Replica>, score: Score)
    requires rs != [] && Falls(xs, score) && Falls(ys, score)
    requires (forall r :: r in xs ==> Within(rs, r)) && forall r :: r in ys ==> !Within(rs, r)
    ensures InOrder(rs, xs + ys, score)
  {
    var all := xs + ys;
    forall i, j | 0 <= i < j < |all|
      ensures if Within(rs, all[i]) == Within(rs, all[j]) then score(all[i].id) >= score(all[j].id) else Within(rs, all[i])
    {
      assert forall k :: 0 <= k < |all| ==> all[k] == if k < |xs| then xs[k] else ys[k - |xs|];
      assert forall k :: 0 <= k < |all| ==> (Within(rs, all[k]) <==> k < |xs|);
    }
  }

  /** A session goes to the highest-scored candidate within the limit. */
  lemma FirstIsBest(rs: seq<Replica>, score: Score, r: Replica)
    requires r in rs && Within(rs, r)
    ensures var chosen := Choose(rs, score);
            chosen != [] && Within(rs, chosen[0]) && score(chosen[0].id) >= score(r.id)
  {
    var chosen := Choose(rs, score);
    ChoosePermutes(rs, score);
    FirstWithin(rs, score);
    ChosenInOrder(rs, score);
    assert r in multiset(chosen);
    var i :| 0 <= i < |chosen| && chosen[i] == r;
  }

  lemma {:induction false} LoadAdds(xs: seq<Replica>, ys: seq<Replica>)
    requires multiset(xs) == multiset(ys)
    ensures Load(xs) == Load(ys)
    decreases |xs|
  {
    SameSize(xs, ys);
    if |xs| > 0 {
      var last := xs[|xs| - 1];
      assert last in multiset(ys);
      var i :| 0 <= i < |ys| && ys[i] == last;
      DropLast(xs);
      DropAt(ys, i);
      LoadAdds(xs[..|xs| - 1], ys[..i] + ys[i + 1..]);
      LoadWithout(ys, i);
    }
  }

  lemma DropAt(ys: seq<Replica>, i: nat)
    requires i < |ys|
    ensures multiset(ys[..i] + ys[i + 1..]) == multiset(ys) - multiset{ys[i]}
  {
    assert ys == ys[..i] + [ys[i]] + ys[i + 1..];
  }

  lemma {:induction false} LoadWithout(ys: seq<Replica>, i: nat)
    requires i < |ys|
    ensures Load(ys) == Load(ys[..i] + ys[i + 1..]) + ys[i].load
  {
    var n := |ys| - 1;
    if i == n {
      assert ys[..i] + ys[i + 1..] == ys[..n];
    } else {
      LoadWithout(ys[..n], i);
      assert (ys[..i] + ys[i + 1..])[..n - 1] == ys[..n][..i] + ys[..n][i + 1..];
    }
  }

  /** Where scores differ, what a session tries, and in which order, does not depend on the order the candidates come in. */
  lemma ChoiceByScore(rs: seq<Replica>, rs': seq<Replica>, score: Score)
    requires rs != [] && multiset(rs) == multiset(rs') && Distinct(rs, score)
    ensures rs' != [] && Choose(rs, score) == Choose(rs', score)
  {
    SameSize(rs, rs');
    LoadAdds(rs, rs');
    RankedKeeps(rs, score);
    RankedDistinct(rs, Ranked(rs, score), score);
    RankedByScore(rs, rs', score);
    SameChoice(rs, rs', score);
  }

  lemma SameChoice(rs: seq<Replica>, rs': seq<Replica>, score: Score)
    requires rs != [] && |rs| == |rs'| && Load(rs) == Load(rs') && Ranked(rs, score) == Ranked(rs', score)
    ensures Choose(rs, score) == Choose(rs', score)
  {
  }

  lemma OnceOnly(rs: seq<Replica>, a: nat, score: Score)
    requires a < |rs| && Distinct(rs, score)
    ensures multiset(rs)[rs[a]] == 1
  {
    assert rs == rs[..a] + [rs[a]] + rs[a + 1..];
    assert rs[a] !in rs[..a] && rs[a] !in rs[a + 1..];
  }

  lemma Counted(rs: seq<Replica>, i: nat, j: nat)
    requires i < j < |rs|
    ensures multiset(rs)[rs[i]] >= if rs[i] == rs[j] then 2 else 1
  {
    assert rs == rs[..i] + [rs[i]] + rs[i + 1..j] + [rs[j]] + rs[j + 1..];
  }

  lemma RankedDistinct(rs: seq<Replica>, ranked: seq<Replica>, score: Score)
    requires multiset(rs) == multiset(ranked) && Distinct(rs, score)
    ensures Distinct(ranked, score)
  {
    forall i, j | 0 <= i < j < |ranked|
      ensures score(ranked[i].id) != score(ranked[j].id)
    {
      assert ranked[i] in multiset(rs) && ranked[j] in multiset(rs);
      var a :| 0 <= a < |rs| && rs[a] == ranked[i];
      var b :| 0 <= b < |rs| && rs[b] == ranked[j];
      OnceOnly(rs, a, score);
      Counted(ranked, i, j);
    }
  }
}

/** Per-intention reservations of the concurrency gate and their split under a limit.
    All amounts are the integers scaled by SCALE that the gate itself uses. */
module Reservations {

  const SCALE := 1000

  type Intention = string

  /** One entry of the reservation record; the record's key order is the sequence order. */
  datatype Reservation = Reservation(key: Intention, amount: nat)

  ghost predicate DistinctKeys(rs: seq<Reservation>) {
    forall i, j :: 0 <= i < j < |rs| ==> rs[i].key != rs[j].key
  }

  /** A reservation record: keys occur once. */
  type Record = rs: seq<Reservation> | DistinctKeys(rs)

  function Sum(rs: seq<Reservation>): nat {
    if rs == [] then 0 else Sum(rs[..|rs| - 1]) + rs[|rs| - 1].amount
  }

  /** What one entry is worth once the record is fitted under `limit`: its raw amount when
      everything fits, else the floor of its proportional share. */
  function EffectiveAmount(rs: seq<Reservation>, limit: int, amount: nat): int
    requires limit > 0
  {
    if Sum(rs) <= limit then amount else amount * limit / Sum(rs)
  }

  function Effective(rs: seq<Reservation>, limit: int): (out: seq<Reservation>)
    requires limit > 0
    ensures |out| == |rs|
    ensures forall i :: 0 <= i < |rs| ==> out[i].key == rs[i].key && out[i].amount == EffectiveAmount(rs, limit, rs[i].amount)
  {
    seq(|rs|, i requires 0 <= i < |rs| =>
      (ShareIsNat(rs, limit, rs[i].amount); Reservation(rs[i].key, EffectiveAmount(rs, limit, rs[i].amount))))
  }

  /** The reservation of one intention, 0 when the record has no such key. */
  function Lookup(rs: seq<Reservation>, key: Intention): nat {
    if rs == [] then 0
    else if rs[|rs| - 1].key == key then rs[|rs| - 1].amount
    else Lookup(rs[..|rs| - 1], key)
  }

  /** The test the gate makes: some entry lost something in the split. */
  predicate OverSubscribed(rs: seq<Reservation>, limit: int)
    requires limit > 0
  {
    exists i :: 0 <= i < |rs| && rs[i].amount > Effective(rs, limit)[i].amount
  }

  // ---------------------------------------------------------------- arithmetic

  lemma DivFloor(a: nat, b: nat, s: nat)
    requires s > 0
    ensures a / s >= 0 && (a / s) * s <= a < (a / s) * s + s
    ensures a <= b * s ==> a / s <= b
    ensures a < b * s ==> a / s < b
  {
    var q := a / s;
    assert q > b ==> q * s >= (b + 1) * s;
    assert q >= b ==> q * s >= b * s;
  }

  lemma MulCancel(a: int, b: int, s: int)
    requires s > 0
    ensures a * s <= b * s ==> a <= b
    ensures a * s < b * s ==> a < b
  {
    assert a > b ==> a * s >= (b + 1) * s;
    assert a >= b ==> a * s >= b * s;
  }

  lemma ShareIsNat(rs: seq<Reservation>, limit: int, amount: nat)
    requires limit > 0
    ensures 0 <= EffectiveAmount(rs, limit, amount) <= amount
    ensures Sum(rs) > limit && amount > 0 ==> EffectiveAmount(rs, limit, amount) < amount
  {
    if Sum(rs) > limit {
      var s := Sum(rs);
      assert 0 <= amount * limit <= amount * s;
      if amount > 0 {
        assert amount * limit < amount * s;
      }
      DivFloor(amount * limit, amount, s);
    }
  }

  // ---------------------------------------------------------------- the split

  lemma {:induction false} SumPrefix(rs: seq<Reservation>, n: nat)
    requires n <= |rs|
    ensures Sum(rs[..n]) <= Sum(rs)
    decreases |rs|
  {
    if n < |rs| {
      assert rs[..|rs| - 1][..n] == rs[..n];
      SumPrefix(rs[..|rs| - 1], n);
    } else {
      assert rs[..n] == rs;
    }
  }

  lemma {:induction false} PositiveEntry(rs: seq<Reservation>) returns (i: nat)
    requires Sum(rs) > 0
    ensures i < |rs| && rs[i].amount > 0
  {
    if rs[|rs| - 1].amount > 0 {
      i := |rs| - 1;
    } else {
      i := PositiveEntry(rs[..|rs| - 1]);
    }
  }

  /** The gate's over-subscription test holds exactly when the raw reservations exceed the limit. */
  lemma OverSubscribedIffSumAboveLimit(rs: seq<Reservation>, limit: int)
    requires limit > 0
    ensures OverSubscribed(rs, limit) <==> Sum(rs) > limit
  {
    if Sum(rs) > limit {
      var i := PositiveEntry(rs);
      ShareIsNat(rs, limit, rs[i].amount);
      assert rs[i].amount > Effective(rs, limit)[i].amount;
    }
  }

  /** `q` units of size `s` stay within the claim `p * limit` and fall short of it by less
      than `n` units. */
  ghost predicate Sandwiched(q: int, p: int, n: int, limit: int, s: int) {
    q * s <= p * limit < (q + n) * s
  }

  lemma SandwichAdds(q: int, p: int, n: int, e: int, r: int, limit: int, s: int)
    requires Sandwiched(q, p, n, limit, s) && Sandwiched(e, r, 1, limit, s)
    ensures Sandwiched(q + e, p + r, n + 1, limit, s)
  {
    assert (p + r) * limit == p * limit + r * limit;
    assert (q + e) * s == q * s + e * s;
    assert (q + e + (n + 1)) * s == (q + n) * s + (e + 1) * s;
  }

  lemma SandwichCancels(q: int, n: int, limit: int, s: int)
    requires s > 0 && Sandwiched(q, s, n, limit, s)
    ensures q <= limit < q + n
  {
    MulCancel(q, limit, s);
    MulCancel(limit, q + n, s);
  }

  /** Shares that are each floored fall short of the exact claim by less than one per entry,
      in every prefix. */
  lemma {:induction false} SharePrefix(eff: seq<Reservation>, rs: seq<Reservation>, limit: int, s: int, n: nat)
    requires |eff| == |rs| && 0 < n <= |rs|
    requires forall i :: 0 <= i < |rs| ==> Sandwiched(eff[i].amount, rs[i].amount, 1, limit, s)
    ensures Sandwiched(Sum(eff[..n]), Sum(rs[..n]), n, limit, s)
    decreases n
  {
    assert rs[..n][..n - 1] == rs[..n - 1];
    assert eff[..n][..n - 1] == eff[..n - 1];
    assert Sandwiched(eff[n - 1].amount, rs[n - 1].amount, 1, limit, s);
    if n > 1 {
      SharePrefix(eff, rs, limit, s, n - 1);
      SandwichAdds(Sum(eff[..n - 1]), Sum(rs[..n - 1]), n - 1, eff[n - 1].amount, rs[n - 1].amount, limit, s);
    }
  }

  lemma ShareIsFloored(rs: seq<Reservation>, limit: int, amount: nat)
    requires limit > 0 && Sum(rs) > limit
    ensures Sandwiched(EffectiveAmount(rs, limit, amount), amount, 1, limit, Sum(rs))
  {
    var s, e := Sum(rs), amount * limit / Sum(rs);
    DivFloor(amount * limit, 0, s);
    assert (e + 1) * s == e * s + s;
  }

  lemma SplitTotal(rs: seq<Reservation>, limit: int)
    requires limit > 0 && Sum(rs) > limit
    ensures Sum(Effective(rs, limit)) <= limit < Sum(Effective(rs, limit)) + |rs|
  {
    var eff, n := Effective(rs, limit), |rs|;
    assert n > 0;
    forall i | 0 <= i < n ensures Sandwiched(eff[i].amount, rs[i].amount, 1, limit, Sum(rs)) {
      ShareIsFloored(rs, limit, rs[i].amount);
    }
    SharePrefix(eff, rs, limit, Sum(rs), n);
    assert eff[..n] == eff && rs[..n] == rs;
    SandwichCancels(Sum(eff), n, limit, Sum(rs));
  }

  /** The proportional split, for any number of intentions: the effective reservations never
      exceed the limit nor their raw values, and flooring loses less than one unit per entry. */
  lemma SplitWithinLimit(rs: seq<Reservation>, limit: int)
    requires limit > 0
    ensures Sum(Effective(rs, limit)) <= limit
    ensures forall i :: 0 <= i < |rs| ==> Effective(rs, limit)[i].amount <= rs[i].amount
    ensures Sum(rs) > limit ==> limit - Sum(Effective(rs, limit)) < |rs|
    ensures Sum(rs) <= limit ==> Effective(rs, limit) == rs
  {
    var eff, s := Effective(rs, limit), Sum(rs);
    forall i | 0 <= i < |rs| ensures eff[i].amount <= rs[i].amount {
      ShareIsNat(rs, limit, rs[i].amount);
    }
    if s > limit {
      SplitTotal(rs, limit);
    } else {
      assert eff == rs;
    }
  }

  /** How much a reservation is left with: at least `n` exactly when it had that much and, if
      the record is split, its exact share of the limit is that much. */
  lemma ShareAtLeastIff(rs: seq<Reservation>, limit: int, i: nat, n: nat)
    requires limit > 0 && i < |rs|
    ensures Effective(rs, limit)[i].amount >= n <==>
            if Sum(rs) <= limit then rs[i].amount >= n else rs[i].amount * limit >= n * Sum(rs)
  {
    var amount, s := rs[i].amount, Sum(rs);
    assert Effective(rs, limit)[i].amount == EffectiveAmount(rs, limit, amount);
    if s > limit {
      ProductIsNat(amount, limit);
      FloorAtLeastIff(amount * limit, n, s);
    }
  }

  lemma ProductIsNat(a: nat, b: nat)
    ensures a * b >= 0
  {
  }

  lemma QuotientAtLeastIff(q: int, a: int, n: int, s: int)
    requires s > 0 && q * s <= a < q * s + s
    ensures q >= n <==> a >= n * s
  {
    MulCancel(q, n, s);
    MulCancel(n, q + 1, s);
    assert (q + 1) * s == q * s + s;
  }

  lemma FloorAtLeastIff(a: nat, n: nat, s: nat)
    requires s > 0
    ensures a / s >= n <==> a >= n * s
  {
    DivFloor(a, 0, s);
    QuotientAtLeastIff(a / s, a, n, s);
  }

  /** A reservation of at least one permit is still worth one permit after the split exactly
      when everything fits or its exact share of the limit is one permit. That the limit covers
      one permit for each intention is not enough. */
  lemma PermitSurvivesIff(rs: seq<Reservation>, limit: int, i: nat)
    requires limit > 0 && i < |rs| && rs[i].amount >= SCALE
    ensures Effective(rs, limit)[i].amount >= SCALE <==> Sum(rs) <= limit || rs[i].amount * limit >= SCALE * Sum(rs)
  {
    ShareAtLeastIff(rs, limit, i, SCALE);
  }

  /** Five permits reserved for one intention and one for another, under a limit of two: the
      second keeps a third of a permit. */
  lemma PermitLostInSplit()
    ensures Effective([Reservation("main", 5000), Reservation("vision", 1000)], 2000)[1].amount == 333
  {
    var rs, one := [Reservation("main", 5000), Reservation("vision", 1000)], [Reservation("main", 5000)];
    assert one[..0] == [] && rs[..|rs| - 1] == one;
    assert Sum(one) == 5000 && Sum(rs) == 6000;
    ShareAtLeastIff(rs, 2000, 1, 333);
    ShareAtLeastIff(rs, 2000, 1, 334);
  }

  /** A positive reservation is left with nothing exactly when its exact share of the limit is
      less than one unit, however few intentions there are. */
  lemma ShareVanishesIff(rs: seq<Reservation>, limit: int, i: nat)
    requires limit > 0 && i < |rs| && rs[i].amount > 0
    ensures Effective(rs, limit)[i].amount == 0 <==> Sum(rs) > limit && rs[i].amount * limit < Sum(rs)
  {
    ShareAtLeastIff(rs, limit, i, 1);
  }

  /** Two intentions and a limit of two: the split takes all of the smaller reservation. */
  lemma SmallShareVanishes()
    ensures Effective([Reservation("main", 5000000), Reservation("vision", 1000)], 2000)[1].amount == 0
  {
    var rs, one := [Reservation("main", 5000000), Reservation("vision", 1000)], [Reservation("main", 5000000)];
    assert one[..0] == [] && rs[..|rs| - 1] == one;
    assert Sum(one) == 5000000 && Sum(rs) == 5001000;
    ShareVanishesIff(rs, 2000, 1);
  }

  /** The share of entry `i` fits in what the entries before it have left. */
  lemma ShareFits(rs: seq<Reservation>, limit: int, i: nat)
    requires limit > 0 && Sum(rs) > limit && i < |rs|
    ensures var eff := Effective(rs, limit);
            && eff[i].amount == rs[i].amount * limit / Sum(rs)
            && Sum(eff[..i + 1]) == Sum(eff[..i]) + eff[i].amount <= limit
  {
    var eff := Effective(rs, limit);
    assert eff[..i + 1][..i] == eff[..i];
    SumPrefix(eff, i + 1);
    SplitWithinLimit(rs, limit);
  }

  method TotalOf(rs: seq<Reservation>) returns (sum: nat)
    ensures sum == Sum(rs)
  {
    sum := 0;
    for i := 0 to |rs|
      invariant sum == Sum(rs[..i])
    {
      assert rs[..i + 1][..i] == rs[..i];
      sum := sum + rs[i].amount;
    }
    assert rs[..|rs|] == rs;
  }

  /** The gate's own loop, with its clamp against `remaining`. Its result is the unclamped
      split, so the clamp never bites whatever the order of the keys. */
  method EffectiveReservations(rs: seq<Reservation>, limit: int) returns (out: seq<Reservation>)
    requires limit > 0
    ensures out == Effective(rs, limit)
  {
    var sum := TotalOf(rs);
    if sum <= limit {
      SplitWithinLimit(rs, limit);
      return rs;
    }
    var remaining := limit;
    out := [];
    ghost var eff := Effective(rs, limit);
    for i := 0 to |rs|
      invariant out == eff[..i]
      invariant remaining == limit - Sum(eff[..i])
    {
      ShareFits(rs, limit, i);
      var scaled := rs[i].amount * limit / sum;
      var v := if scaled < remaining then scaled else remaining;
      v := if v > 0 then v else 0;
      assert v == eff[i].amount;
      out := out + [Reservation(rs[i].key, v)];
      remaining := remaining - v;
    }
  }
}

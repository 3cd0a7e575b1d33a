/** Splitting a token reduction over messages, by pressure, without exceeding any message's capacity. */
module WaterFill {
  import opened Basics
  import opened Tallies

  ghost function Units(): int -> real {
    (n: int) => n as real
  }

  ghost function PositivePart(): int -> real {
    (n: int) => if n > 0 then n as real else 0.0
  }

  const PRESSURE_FLOOR: real := 0.000000001

  function Proportion(amount: real, part: real, whole: real): real
    requires whole > 0.0
  {
    amount * part / whole
  }

  /** One message's share of what remains: proportional to its pressure, but at least one token. */
  function Share(remaining: int, pressure: real, totalPressure: real): (share: int)
    requires totalPressure > 0.0
    ensures share >= 1
  {
    MaxInt(1, Proportion(remaining as real, Max(pressure, PRESSURE_FLOOR), totalPressure).Floor)
  }

  /** The pressures that compete in a round, each raised to the floor. */
  ghost function Competing(active: set<nat>, pressures: map<nat, real>): map<nat, real>
    requires active <= pressures.Keys
  {
    map i | i in active :: Max(pressures[i], PRESSURE_FLOOR)
  }

  ghost function Itself(): real -> real {
    (p: real) => p
  }

  lemma PressureIsPositive(active: set<nat>, pressures: map<nat, real>)
    requires active <= pressures.Keys && active != {}
    ensures Tally(Competing(active, pressures), Itself()) > 0.0
  {
    var i :| i in active;
    TallyCovers(Competing(active, pressures), Itself());
    assert Itself()(Competing(active, pressures)[i]) >= PRESSURE_FLOOR;
  }

  method TotalPressure(active: set<nat>, pressures: map<nat, real>) returns (total: real)
    requires active <= pressures.Keys
    ensures total == Tally(Competing(active, pressures), Itself())
  {
    hide Tally;
    total := 0.0;
    var left := active;
    assert Competing(left, pressures) == Competing(active, pressures);
    while left != {}
      invariant left <= active
      invariant total + Tally(Competing(left, pressures), Itself()) == Tally(Competing(active, pressures), Itself())
      decreases left
    {
      var i :| i in left;
      TallyTake(Competing(left, pressures), i, Itself());
      assert Competing(left, pressures) - {i} == Competing(left - {i}, pressures);
      total := total + Max(pressures[i], PRESSURE_FLOOR);
      left := left - {i};
    }
    TallyZero(Competing(left, pressures), Itself());
  }

  ghost predicate IsAscending(order: seq<nat>, s: set<nat>) {
    && (forall x :: x in s <==> x in order)
    && (forall i, j | 0 <= i < j < |order| :: order[i] < order[j])
  }

  lemma {:induction false} AscendingIsUnique(p: seq<nat>, q: seq<nat>, s: set<nat>)
    requires IsAscending(p, s) && IsAscending(q, s)
    ensures p == q
    decreases |p|
  {
    assert q != [] ==> q[0] in s;
    if p != [] {
      assert p[0] in s && p[0] in q;
      assert q[0] in s && q[0] in p;
      assert p[0] == q[0];
      forall x ensures x in s - {p[0]} <==> x in p[1..] {}
      forall x ensures x in s - {p[0]} <==> x in q[1..] {}
      AscendingIsUnique(p[1..], q[1..], s - {p[0]});
      assert p == [p[0]] + p[1..] && q == [q[0]] + q[1..];
    }
  }

  /** The elements of a set in ascending order. */
  method Ascending(s: set<nat>) returns (order: seq<nat>)
    ensures IsAscending(order, s)
  {
    order := [];
    var left := s;
    while left != {}
      invariant left <= s
      invariant forall i | 0 <= i < |order| :: order[i] in s
      invariant forall x | x in s :: x in left || x in order
      invariant forall i, j | 0 <= i < j < |order| :: order[i] < order[j]
      invariant forall i, x | 0 <= i < |order| && x in left :: order[i] < x
      decreases left
    {
      var least :| least in left;
      var unseen := left - {least};
      while unseen != {}
        invariant unseen <= left && least in left && least !in unseen
        invariant forall x | x in left && x !in unseen :: least <= x
        decreases unseen
      {
        var x :| x in unseen;
        unseen := unseen - {x};
        if x < least { least := x; }
      }
      order := order + [least];
      left := left - {least};
    }
  }

  /** Messages that can still give tokens up. */
  function Active(capacities: map<nat, int>, allocations: map<nat, int>): set<nat> {
    set i | i in capacities && i in allocations && allocations[i] < capacities[i]
  }

  ghost predicate Unfilled(capacities: map<nat, int>, allocations: map<nat, int>) {
    && allocations.Keys == capacities.Keys
    && (forall i | i in capacities :: 0 <= allocations[i] && allocations[i] as real <= PositivePart()(capacities[i]))
  }

  datatype Level = Level(left: int, poured: map<nat, int>)

  function PourOne(l: Level, i: nat, capacity: int, pressure: real, total: real): Level
    requires i in l.poured && total > 0.0
  {
    var amount := MinInt(MinInt(capacity - l.poured[i], Share(l.left, pressure, total)), l.left);
    Level(l.left - amount, l.poured[i := l.poured[i] + amount])
  }

  /** One round: each message in turn gives up its share of what the earlier ones left over. */
  function PourAll(l: Level, order: seq<nat>, capacities: map<nat, int>, pressures: map<nat, real>, total: real): Level
    requires total > 0.0
    requires forall i | i in order :: i in l.poured && i in capacities && i in pressures
    decreases |order|
  {
    if order == [] || l.left <= 0 then l
    else PourAll(PourOne(l, order[0], capacities[order[0]], pressures[order[0]], total), order[1..],
                 capacities, pressures, total)
  }

  /** One message gives up some tokens: the totals move by exactly that many. */
  lemma Pour(allocations: map<nat, int>, i: nat, amount: int)
    requires i in allocations
    ensures Tally(allocations[i := allocations[i] + amount], Units()) == Tally(allocations, Units()) + amount as real
  {
    TallyPut(allocations, i, allocations[i] + amount, Units());
  }

  /** When no message has capacity left, everything that could be given has been given. */
  lemma FullWhenInactive(capacities: map<nat, int>, allocations: map<nat, int>)
    requires Unfilled(capacities, allocations) && Active(capacities, allocations) == {}
    ensures Tally(allocations, Units()) == Tally(capacities, PositivePart())
  {
    forall i | i in capacities ensures Units()(allocations[i]) == PositivePart()(capacities[i]) {
      assert i !in Active(capacities, allocations);
    }
    TallySame(allocations, Units(), capacities, PositivePart());
  }

  lemma NeverOverfull(capacities: map<nat, int>, allocations: map<nat, int>)
    requires Unfilled(capacities, allocations)
    ensures Tally(allocations, Units()) <= Tally(capacities, PositivePart())
  {
    TallyCompare(allocations, Units(), capacities, PositivePart());
  }

  ghost function Kept(allocations: map<nat, int>): map<nat, int> {
    map i | i in allocations && allocations[i] > 0 :: allocations[i]
  }

  lemma {:induction false} DroppingZeros(allocations: map<nat, int>)
    requires forall i | i in allocations :: allocations[i] >= 0
    ensures Tally(Kept(allocations), Units()) == Tally(allocations, Units())
    decreases |allocations|
  {
    hide Tally;
    if allocations == map[] {
      assert Kept(allocations) == allocations;
    } else {
      var k :| k in allocations;
      var rest := allocations - {k};
      DroppingZeros(rest);
      TallyTake(allocations, k, Units());
      TallyRemove(Kept(allocations), k, Units());
      assert Kept(allocations) - {k} == Kept(rest);
    }
  }

  /** A round conserves the reduction, respects every capacity and, if some message is active, makes progress. */
  lemma {:induction false} PourAllConserves(
    l: Level, order: seq<nat>, capacities: map<nat, int>, pressures: map<nat, real>, total: real)
    requires total > 0.0 && Unfilled(capacities, l.poured) && l.left >= 0
    requires forall i | i in order :: i in l.poured && i in capacities && i in pressures
    requires forall i | 0 <= i < |order| :: l.poured[order[i]] < capacities[order[i]]
    requires forall i, j | 0 <= i < j < |order| :: order[i] < order[j]
    ensures var end := PourAll(l, order, capacities, pressures, total);
            && Unfilled(capacities, end.poured) && 0 <= end.left <= l.left
            && end.left as real + Tally(end.poured, Units()) == l.left as real + Tally(l.poured, Units())
            && (order != [] && l.left > 0 ==> end.left < l.left)
    decreases |order|
  {
    hide Tally;
    if order != [] && l.left > 0 {
      var i := order[0];
      var next := PourOne(l, i, capacities[i], pressures[i], total);
      Pour(l.poured, i, next.poured[i] - l.poured[i]);
      PourAllConserves(next, order[1..], capacities, pressures, total);
    }
  }

  ghost function OrderOf(s: set<nat>): (order: seq<nat>)
    ensures IsAscending(order, s)
  {
    OrderExists(s);
    var order :| IsAscending(order, s);
    order
  }

  lemma {:induction false} OrderExists(s: set<nat>)
    ensures exists order :: IsAscending(order, s)
    decreases |s|
  {
    if s == {} {
      assert IsAscending([], s);
    } else {
      var top := Greatest(s);
      OrderExists(s - {top});
      var order :| IsAscending(order, s - {top});
      forall i | 0 <= i < |order| ensures order[i] < top { assert order[i] in s - {top}; }
      assert IsAscending(order + [top], s);
    }
  }

  lemma {:induction false} Greatest(s: set<nat>) returns (top: nat)
    requires s != {}
    ensures top in s && forall x | x in s :: x <= top
    decreases |s|
  {
    var one: nat :| one in s;
    top := one;
    if s - {one} != {} {
      var other := Greatest(s - {one});
      top := MaxInt(one, other);
    }
    forall x | x in s ensures x <= top {
      if x != one { assert x in s - {one}; }
    }
  }

  ghost predicate Running(l: Level, capacities: map<nat, int>, pressures: map<nat, real>) {
    && Unfilled(capacities, l.poured) && capacities.Keys <= pressures.Keys
    && l.left > 0 && Active(capacities, l.poured) != {}
  }

  ghost function PressureOf(l: Level, capacities: map<nat, int>, pressures: map<nat, real>): (total: real)
    requires Running(l, capacities, pressures)
    ensures total > 0.0
  {
    PressureIsPositive(Active(capacities, l.poured), pressures);
    Tally(Competing(Active(capacities, l.poured), pressures), Itself())
  }

  /** One whole round of the loop. */
  ghost function NextRound(l: Level, capacities: map<nat, int>, pressures: map<nat, real>): Level
    requires Running(l, capacities, pressures)
  {
    PourAll(l, OrderOf(Active(capacities, l.poured)), capacities, pressures, PressureOf(l, capacities, pressures))
  }

  /** The rounds taken together. */
  ghost function FillFrom(l: Level, capacities: map<nat, int>, pressures: map<nat, real>): map<nat, int>
    requires Unfilled(capacities, l.poured) && capacities.Keys <= pressures.Keys
    decreases l.left
  {
    if !Running(l, capacities, pressures) then l.poured
    else
      RoundKeeps(l, capacities, pressures);
      FillFrom(NextRound(l, capacities, pressures), capacities, pressures)
  }

  lemma RoundKeeps(l: Level, capacities: map<nat, int>, pressures: map<nat, real>)
    requires Running(l, capacities, pressures)
    ensures var next := NextRound(l, capacities, pressures);
            && Unfilled(capacities, next.poured) && 0 <= next.left < l.left
            && next.left as real + Tally(next.poured, Units()) == l.left as real + Tally(l.poured, Units())
  {
    hide PourAll, Tally;
    var active := Active(capacities, l.poured);
    var some :| some in active;
    PourAllConserves(l, OrderOf(active), capacities, pressures, PressureOf(l, capacities, pressures));
  }

  /** Pours round the given order, stopping as soon as nothing is left. */
  method PourRound(start: Level, order: seq<nat>, capacities: map<nat, int>, pressures: map<nat, real>, total: real)
    returns (end: Level)
    requires total > 0.0
    requires forall i | i in order :: i in start.poured && i in capacities && i in pressures
    ensures end == PourAll(start, order, capacities, pressures, total)
  {
    hide Share;
    var left, poured := start.left, start.poured;
    var k := 0;
    while k < |order| && left > 0
      invariant 0 <= k <= |order| && poured.Keys == start.poured.Keys
      invariant PourAll(start, order, capacities, pressures, total)
                  == PourAll(Level(left, poured), order[k..], capacities, pressures, total)
    {
      var i := order[k];
      var capacity := capacities[i] - poured[i];
      var amount := MinInt(MinInt(capacity, Share(left, pressures[i], total)), left);
      assert order[k..][0] == i && order[k..][1..] == order[k + 1..];
      assert Level(left - amount, poured[i := poured[i] + amount])
          == PourOne(Level(left, poured), i, capacities[i], pressures[i], total);
      poured := poured[i := poured[i] + amount];
      left := left - amount;
      k := k + 1;
    }
    end := Level(left, poured);
  }

  /** One round over the messages that are still active. */
  method Round(now: Level, capacities: map<nat, int>, pressures: map<nat, real>) returns (next: Level)
    requires now.left > 0 && Unfilled(capacities, now.poured) && capacities.Keys <= pressures.Keys
    requires Active(capacities, now.poured) != {}
    ensures Unfilled(capacities, next.poured) && 0 <= next.left < now.left
    ensures next.left as real + Tally(next.poured, Units()) == now.left as real + Tally(now.poured, Units())
    ensures FillFrom(next, capacities, pressures) == FillFrom(now, capacities, pressures)
  {
    hide Tally; hide PourAll;
    var active := Active(capacities, now.poured);
    var total := TotalPressure(active, pressures);
    PressureIsPositive(active, pressures);
    var order := Ascending(active);
    AscendingIsUnique(order, OrderOf(active), active);
    var some :| some in active;
    PourAllConserves(now, order, capacities, pressures, total);
    next := PourRound(now, order, capacities, pressures, total);
  }

  /** Allocates a reduction over the capacities, redistributing shares that hit their cap.  The result
      gives up exactly the reduction, or every positive capacity when that is less, whatever the
      pressures; and the loop ends because each round makes progress. */
  method Fill(reduction: int, capacities: map<nat, int>, pressures: map<nat, real>) returns (filled: map<nat, int>)
    requires capacities.Keys <= pressures.Keys
    ensures forall i | i in filled :: i in capacities && 0 < filled[i] <= capacities[i]
    ensures Tally(filled, Units()) == Max(0.0, Min(reduction as real, Tally(capacities, PositivePart())))
    ensures Unfilled(capacities, map i | i in capacities :: 0)
    ensures filled == Kept(FillFrom(Level(reduction, map i | i in capacities :: 0), capacities, pressures))
  {
    hide Tally;
    var allocations := map i | i in capacities :: 0;
    var remaining := reduction;
    ghost var start := allocations;
    TallyZero(allocations, Units());
    while remaining > 0 && Active(capacities, allocations) != {}
      invariant Unfilled(capacities, allocations)
      invariant remaining as real + Tally(allocations, Units()) == reduction as real
      invariant if reduction < 0 then remaining == reduction else remaining >= 0
      invariant FillFrom(Level(remaining, allocations), capacities, pressures)
                  == FillFrom(Level(reduction, start), capacities, pressures)
      decreases remaining
    {
      var next := Round(Level(remaining, allocations), capacities, pressures);
      var progressed := remaining - next.left;
      remaining, allocations := next.left, next.poured;
      if progressed == 0 { break; }
    }
    filled := map i | i in allocations && allocations[i] > 0 :: allocations[i];
    assert filled == Kept(allocations);
    DroppingZeros(allocations);
    NeverOverfull(capacities, allocations);
    if Active(capacities, allocations) == {} { FullWhenInactive(capacities, allocations); }
  }

  // ---------------------------------------------------------------- what each message gives in a round

  /** What a message with some room gives when its turn comes. */
  function Gives(left: int, room: int, pressure: real, total: real): int
    requires total > 0.0
  {
    if left <= 0 then 0 else MinInt(MinInt(room, Share(left, pressure, total)), left)
  }

  /** What is left when a message's turn comes. */
  function TurnOf(
    l: Level, order: seq<nat>, capacities: map<nat, int>, pressures: map<nat, real>, total: real, i: nat): int
    requires total > 0.0
    requires forall k | k in order :: k in l.poured && k in capacities && k in pressures
    decreases |order|
  {
    if order == [] || order[0] == i || l.left <= 0 then l.left
    else TurnOf(PourOne(l, order[0], capacities[order[0]], pressures[order[0]], total), order[1..],
                capacities, pressures, total, i)
  }

  ghost predicate Visits(l: Level, order: seq<nat>, capacities: map<nat, int>, pressures: map<nat, real>) {
    && (forall k | k in order :: k in l.poured && k in capacities && k in pressures && l.poured[k] < capacities[k])
    && (forall i, j | 0 <= i < j < |order| :: order[i] < order[j])
  }

  lemma VisitsRest(l: Level, order: seq<nat>, capacities: map<nat, int>, pressures: map<nat, real>, total: real)
    requires total > 0.0 && order != [] && l.left > 0 && Visits(l, order, capacities, pressures)
    ensures var next := PourOne(l, order[0], capacities[order[0]], pressures[order[0]], total);
            && Visits(next, order[1..], capacities, pressures) && order[0] !in order[1..]
            && next.left < l.left && next.poured.Keys == l.poured.Keys
            && (forall k | k in l.poured && k != order[0] :: next.poured[k] == l.poured[k])
            && next.poured[order[0]]
                 == l.poured[order[0]]
                    + Gives(l.left, capacities[order[0]] - l.poured[order[0]], pressures[order[0]], total)
  {
    hide Share;
    forall k | k in order[1..] ensures k in order && k != order[0] {}
  }

  /** A round adds to each message it visits what the message gives when its turn comes, and nothing to others. */
  lemma {:induction false} RoundGives(
    l: Level, order: seq<nat>, capacities: map<nat, int>, pressures: map<nat, real>, total: real, i: nat)
    requires total > 0.0 && Visits(l, order, capacities, pressures) && i in l.poured
    ensures var end := PourAll(l, order, capacities, pressures, total);
            && i in end.poured
            && (i !in order ==> end.poured[i] == l.poured[i])
            && (i in order ==>
                  end.poured[i]
                    == l.poured[i] + Gives(TurnOf(l, order, capacities, pressures, total, i),
                                           capacities[i] - l.poured[i], pressures[i], total))
    ensures TurnOf(l, order, capacities, pressures, total, i) <= l.left
    decreases |order|
  {
    assert order != [] ==> order[0] in order;
    hide PourOne, Gives;
    if order != [] && l.left > 0 {
      VisitsRest(l, order, capacities, pressures, total);
      var next := PourOne(l, order[0], capacities[order[0]], pressures[order[0]], total);
      RoundGives(next, order[1..], capacities, pressures, total, i);
    } else if order != [] {
      NothingLeftNothingGiven(l, capacities, pressures, total, i);
    }
  }

  lemma NothingLeftNothingGiven(l: Level, capacities: map<nat, int>, pressures: map<nat, real>, total: real, i: nat)
    requires total > 0.0 && l.left <= 0
    ensures forall room, p :: Gives(l.left, room, p, total) == 0
  {
  }

  /** Whoever comes later finds no more left. */
  lemma {:induction false} TurnsDescend(
    l: Level, order: seq<nat>, capacities: map<nat, int>, pressures: map<nat, real>, total: real, i: nat, j: nat)
    requires total > 0.0 && Visits(l, order, capacities, pressures) && i in order && j in order && i < j
    ensures TurnOf(l, order, capacities, pressures, total, j) <= TurnOf(l, order, capacities, pressures, total, i)
    decreases |order|
  {
    hide PourOne;
    if l.left > 0 && order[0] == i {
      RoundGives(l, order, capacities, pressures, total, j);
    } else if l.left > 0 && order[0] != j {
      VisitsRest(l, order, capacities, pressures, total);
      var next := PourOne(l, order[0], capacities[order[0]], pressures[order[0]], total);
      TurnsDescend(next, order[1..], capacities, pressures, total, i, j);
    }
  }

  lemma ProportionGrows(x: real, y: real, part: real, whole: real)
    requires x <= y && part >= 0.0 && whole > 0.0
    ensures Proportion(x, part, whole) <= Proportion(y, part, whole)
  {
    ProductGrows(x, y, part);
  }

  lemma ProportionFits(x: real, part: real, whole: real)
    requires x >= 0.0 && 0.0 <= part <= whole && whole > 0.0
    ensures Proportion(x, part, whole) <= x
  {
    ProductGrows(part, whole, x);
    QuotientWithin(x * part, whole, x);
  }

  lemma QuotientWithin(amount: real, whole: real, x: real)
    requires whole > 0.0 && amount <= x * whole
    ensures amount / whole <= x
  {
    var q := amount / whole;
    assert q * whole == amount;
    if q > x { assert (q - x) * whole > 0.0; }
  }

  lemma ShareGrows(left: int, more: int, pressure: real, total: real)
    requires left <= more && total > 0.0
    ensures Share(left, pressure, total) <= Share(more, pressure, total)
  {
    hide Proportion;
    ProportionGrows(left as real, more as real, Max(pressure, PRESSURE_FLOOR), total);
  }

  /** At the same remainder a message under more pressure is asked for no less. */
  lemma ShareRises(left: int, pressure: real, higher: real, total: real)
    requires left >= 0 && total > 0.0 && Max(pressure, PRESSURE_FLOOR) <= Max(higher, PRESSURE_FLOOR)
    ensures Share(left, pressure, total) <= Share(left, higher, total)
  {
    hide Proportion;
    ProportionRises(left as real, Max(pressure, PRESSURE_FLOOR), Max(higher, PRESSURE_FLOOR), total);
  }

  lemma ProportionRises(amount: real, part: real, higher: real, whole: real)
    requires amount >= 0.0 && part <= higher && whole > 0.0
    ensures Proportion(amount, part, whole) <= Proportion(amount, higher, whole)
  {
    ProductGrows(part, higher, amount);
    QuotientGrows(amount * part, amount * higher, whole);
  }

  lemma QuotientGrows(x: real, y: real, whole: real)
    requires x <= y && whole > 0.0
    ensures x / whole <= y / whole
  {
  }

  /** A share in whole tokens: the proportional part rounded down, or one token when that is less. */
  lemma ShareMeaning(left: int, pressure: real, total: real)
    requires total > 0.0
    ensures var share, part := Share(left, pressure, total), left as real * Max(pressure, 0.000000001);
            && share >= 1
            && (share > 1 ==> share as real * total <= part)
            && part < share as real * total + total
  {
    var share, part := Share(left, pressure, total), left as real * Max(pressure, 0.000000001);
    var q := part / total;
    assert q * total == part;
    ShareBounds(share, q, part, total);
  }

  lemma ShareBounds(share: int, q: real, part: real, total: real)
    requires total > 0.0 && q * total == part && share == MaxInt(1, q.Floor)
    ensures share > 1 ==> share as real * total <= part
    ensures part < share as real * total + total
  {
    UnderNext(q, part, share as real, total);
    if share > 1 { ProductGrows(share as real, q, total); }
  }

  lemma UnderNext(q: real, part: real, s: real, total: real)
    requires total > 0.0 && q * total == part && q < s + 1.0
    ensures part < s * total + total
  {
    ProductIsLess(q, s + 1.0, total);
  }

  /** The pressures of a round add up to the total, so no share is more than what is left. */
  lemma ShareFits(left: int, pressure: real, total: real)
    requires left > 0 && Max(pressure, PRESSURE_FLOOR) <= total
    ensures Share(left, pressure, total) <= left
  {
    hide Proportion;
    ProportionFits(left as real, Max(pressure, PRESSURE_FLOOR), total);
  }

  // ---------------------------------------------------------------- when equal messages give equally

  /** Two messages that the caller describes alike. */
  ghost predicate Alike(capacities: map<nat, int>, pressures: map<nat, real>, i: nat, j: nat) {
    && i in capacities && j in capacities && i in pressures && j in pressures && i < j
    && capacities[i] == capacities[j] && Max(pressures[i], PRESSURE_FLOOR) == Max(pressures[j], PRESSURE_FLOOR)
  }

  /** The earlier of two messages has at least the room and at least the pressure of the later one. */
  ghost predicate Leads(capacities: map<nat, int>, pressures: map<nat, real>, i: nat, j: nat) {
    && i in capacities && j in capacities && i in pressures && j in pressures && i < j
    && capacities[i] >= capacities[j] && Max(pressures[i], PRESSURE_FLOOR) >= Max(pressures[j], PRESSURE_FLOOR)
  }

  ghost function Turn(l: Level, capacities: map<nat, int>, pressures: map<nat, real>, i: nat): int
    requires Running(l, capacities, pressures)
  {
    TurnOf(l, OrderOf(Active(capacities, l.poured)), capacities, pressures, PressureOf(l, capacities, pressures), i)
  }

  lemma TurnIsNotNegative(l: Level, capacities: map<nat, int>, pressures: map<nat, real>, i: nat)
    requires Running(l, capacities, pressures)
    ensures Turn(l, capacities, pressures, i) >= 0
  {
    hide TurnOf, PressureOf, OrderOf;
    RoundVisits(l, capacities, pressures);
    TurnOfIsNotNegative(l, OrderOf(Active(capacities, l.poured)), capacities, pressures,
                        PressureOf(l, capacities, pressures), i);
  }

  lemma {:induction false} TurnOfIsNotNegative(
    l: Level, order: seq<nat>, capacities: map<nat, int>, pressures: map<nat, real>, total: real, i: nat)
    requires total > 0.0 && Visits(l, order, capacities, pressures) && l.left >= 0
    ensures TurnOf(l, order, capacities, pressures, total, i) >= 0
    decreases |order|
  {
    if order != [] && order[0] != i && l.left > 0 {
      VisitsRest(l, order, capacities, pressures, total);
      TurnOfIsNotNegative(PourOne(l, order[0], capacities[order[0]], pressures[order[0]], total), order[1..],
                          capacities, pressures, total, i);
    }
  }

  lemma RoundVisits(l: Level, capacities: map<nat, int>, pressures: map<nat, real>)
    requires Running(l, capacities, pressures)
    ensures Visits(l, OrderOf(Active(capacities, l.poured)), capacities, pressures)
  {
  }

  lemma OwnPressureFits(l: Level, capacities: map<nat, int>, pressures: map<nat, real>, i: nat)
    requires Running(l, capacities, pressures) && i in Active(capacities, l.poured)
    ensures Max(pressures[i], PRESSURE_FLOOR) <= PressureOf(l, capacities, pressures)
  {
    var m: map<nat, real> := Competing(Active(capacities, l.poured), pressures);
    TallyCovers<nat, real>(m, Itself());
    assert Itself()(m[i]) == Max(pressures[i], PRESSURE_FLOOR);
  }

  /** What the loop's round adds to a message: the smaller of its room and its share of what is left at its turn. */
  lemma RoundAdds(l: Level, capacities: map<nat, int>, pressures: map<nat, real>, i: nat)
    requires Running(l, capacities, pressures) && i in capacities
    ensures var next, turn := NextRound(l, capacities, pressures), Turn(l, capacities, pressures, i);
            && i in next.poured
            && next.poured[i] - l.poured[i]
                 == if i !in Active(capacities, l.poured) || turn <= 0 then 0
                    else MinInt(capacities[i] - l.poured[i],
                                Share(turn, pressures[i], PressureOf(l, capacities, pressures)))
  {
    hide Share, PourAll, TurnOf, OrderOf, PressureOf;
    RoundVisits(l, capacities, pressures);
    assert i in l.poured;
    var order, total := OrderOf(Active(capacities, l.poured)), PressureOf(l, capacities, pressures);
    RoundGives(l, order, capacities, pressures, total, i);
    if i in order {
      OwnPressureFits(l, capacities, pressures, i);
      if Turn(l, capacities, pressures, i) > 0 { ShareFits(Turn(l, capacities, pressures, i), pressures[i], total); }
    }
  }

  /** The later of two messages finds the same share as the earlier one, or at least all it has room for. */
  ghost predicate SharesAgree(l: Level, capacities: map<nat, int>, pressures: map<nat, real>, i: nat, j: nat)
    requires Running(l, capacities, pressures) && Alike(capacities, pressures, i, j) && j in l.poured
  {
    var total := PressureOf(l, capacities, pressures);
    var early, late := Turn(l, capacities, pressures, i), Turn(l, capacities, pressures, j);
    || early <= 0
    || (late > 0 && (Share(late, pressures[j], total) == Share(early, pressures[i], total)
                     || Share(late, pressures[j], total) >= capacities[j] - l.poured[j]))
  }

  lemma EqualAfterRoundIff(l: Level, capacities: map<nat, int>, pressures: map<nat, real>, i: nat, j: nat)
    requires Running(l, capacities, pressures) && Alike(capacities, pressures, i, j)
    requires l.poured[i] == l.poured[j] < capacities[i]
    ensures var next := NextRound(l, capacities, pressures);
            && i in next.poured && j in next.poured
            && (next.poured[i] == next.poured[j] <==> SharesAgree(l, capacities, pressures, i, j))
  {
    hide NextRound, Turn, Share, PressureOf;
    RoundAdds(l, capacities, pressures, i);
    RoundAdds(l, capacities, pressures, j);
    EarlierFindsMore(l, capacities, pressures, i, j);
  }

  lemma EarlierFindsMore(l: Level, capacities: map<nat, int>, pressures: map<nat, real>, i: nat, j: nat)
    requires Running(l, capacities, pressures) && Leads(capacities, pressures, i, j)
    requires i in Active(capacities, l.poured) && j in Active(capacities, l.poured)
    ensures Turn(l, capacities, pressures, j) <= Turn(l, capacities, pressures, i)
    ensures Share(Turn(l, capacities, pressures, j), pressures[j], PressureOf(l, capacities, pressures))
              <= Share(Turn(l, capacities, pressures, i), pressures[i], PressureOf(l, capacities, pressures))
  {
    hide TurnOf, OrderOf, Proportion, PressureOf;
    RoundVisits(l, capacities, pressures);
    TurnsDescend(l, OrderOf(Active(capacities, l.poured)), capacities, pressures,
                 PressureOf(l, capacities, pressures), i, j);
    ShareGrows(Turn(l, capacities, pressures, j), Turn(l, capacities, pressures, i), pressures[j],
               PressureOf(l, capacities, pressures));
    TurnIsNotNegative(l, capacities, pressures, i);
    ShareRises(Turn(l, capacities, pressures, i), pressures[j], pressures[i], PressureOf(l, capacities, pressures));
  }

  /** The earlier message is ahead, or both have given all they can. */
  ghost predicate Ahead(poured: map<nat, int>, capacities: map<nat, int>, i: nat, j: nat) {
    i in poured && j in poured && j in capacities && poured[i] >= poured[j]
    && (poured[i] > poured[j] || poured[j] >= capacities[j])
  }

  /** Once ahead, the earlier message stays ahead: the later one can only catch up by giving all it has. */
  lemma AheadAfterRound(l: Level, capacities: map<nat, int>, pressures: map<nat, real>, i: nat, j: nat)
    requires Running(l, capacities, pressures) && Leads(capacities, pressures, i, j)
    requires i in l.poured && j in l.poured && l.poured[i] >= l.poured[j]
    ensures var next := NextRound(l, capacities, pressures);
            && i in next.poured && j in next.poured && next.poured[i] >= next.poured[j]
            && (Ahead(l.poured, capacities, i, j) ==> Ahead(next.poured, capacities, i, j))
  {
    hide NextRound, Turn, Share, PressureOf;
    RoundAdds(l, capacities, pressures, i);
    RoundAdds(l, capacities, pressures, j);
    RoundKeeps(l, capacities, pressures);
    if l.poured[i] < capacities[i] && l.poured[j] < capacities[j] {
      EarlierFindsMore(l, capacities, pressures, i, j);
    }
  }

  lemma {:induction false} AheadAtTheEnd(l: Level, capacities: map<nat, int>, pressures: map<nat, real>, i: nat, j: nat)
    requires Unfilled(capacities, l.poured) && capacities.Keys <= pressures.Keys && Leads(capacities, pressures, i, j)
    requires Ahead(l.poured, capacities, i, j)
    ensures Ahead(FillFrom(l, capacities, pressures), capacities, i, j)
    decreases l.left
  {
    hide NextRound, Alike, Unfilled;
    if Running(l, capacities, pressures) {
      RoundKeeps(l, capacities, pressures);
      AheadAfterRound(l, capacities, pressures, i, j);
      AheadAtTheEnd(NextRound(l, capacities, pressures), capacities, pressures, i, j);
    }
  }

  /** A message that is ahead of a later one with no more room and no more pressure ends up having given at
      least as much as the later one. */
  lemma {:induction false} LeaderGivesNoLess(
    l: Level, capacities: map<nat, int>, pressures: map<nat, real>, i: nat, j: nat)
    requires Unfilled(capacities, l.poured) && capacities.Keys <= pressures.Keys && Leads(capacities, pressures, i, j)
    requires l.poured[i] >= l.poured[j]
    ensures var f := FillFrom(l, capacities, pressures); i in f && j in f && f[i] >= f[j]
    decreases l.left
  {
    hide NextRound;
    if Running(l, capacities, pressures) {
      RoundKeeps(l, capacities, pressures);
      AheadAfterRound(l, capacities, pressures, i, j);
      LeaderGivesNoLess(NextRound(l, capacities, pressures), capacities, pressures, i, j);
    }
  }

  /** In every round that still asks the two messages, their shares agree. */
  ghost predicate NeverSeparated(l: Level, capacities: map<nat, int>, pressures: map<nat, real>, i: nat, j: nat)
    requires Unfilled(capacities, l.poured) && capacities.Keys <= pressures.Keys && Alike(capacities, pressures, i, j)
    decreases l.left
  {
    if !Running(l, capacities, pressures) then true
    else
      RoundKeeps(l, capacities, pressures);
      (l.poured[j] < capacities[j] ==> SharesAgree(l, capacities, pressures, i, j))
      && NeverSeparated(NextRound(l, capacities, pressures), capacities, pressures, i, j)
  }

  /** Two messages with the same capacity and pressure give the same in the end exactly when both give all they
      have, or the shares of no round told them apart. */
  lemma {:induction false} EqualMessagesEndEqualIff(
    l: Level, capacities: map<nat, int>, pressures: map<nat, real>, i: nat, j: nat)
    requires Unfilled(capacities, l.poured) && capacities.Keys <= pressures.Keys && Alike(capacities, pressures, i, j)
    requires l.poured[i] == l.poured[j]
    ensures var f := FillFrom(l, capacities, pressures);
            && i in f && j in f
            && (f[i] == f[j] <==> f[j] >= capacities[j] || NeverSeparated(l, capacities, pressures, i, j))
    decreases l.left
  {
    hide NextRound, SharesAgree, Turn, Share, PressureOf;
    if Running(l, capacities, pressures) {
      RoundKeeps(l, capacities, pressures);
      var next := NextRound(l, capacities, pressures);
      AheadAfterRound(l, capacities, pressures, i, j);
      if l.poured[j] < capacities[j] {
        EqualAfterRoundIff(l, capacities, pressures, i, j);
      } else {
        RoundAdds(l, capacities, pressures, i);
        RoundAdds(l, capacities, pressures, j);
      }
      FillEnds(next, capacities, pressures);
      if next.poured[i] == next.poured[j] {
        EqualMessagesEndEqualIff(next, capacities, pressures, i, j);
      } else {
        AheadAtTheEnd(next, capacities, pressures, i, j);
      }
    }
  }

  /** The loop stops when everything asked for was given, or everything there was. */
  lemma {:induction false} FillEnds(l: Level, capacities: map<nat, int>, pressures: map<nat, real>)
    requires Unfilled(capacities, l.poured) && capacities.Keys <= pressures.Keys
    ensures var f := FillFrom(l, capacities, pressures);
            && Unfilled(capacities, f)
            && (Active(capacities, f) == {} || Tally(f, Units()) >= l.left as real + Tally(l.poured, Units()))
    decreases l.left
  {
    hide NextRound, Tally;
    if Running(l, capacities, pressures) {
      RoundKeeps(l, capacities, pressures);
      FillEnds(NextRound(l, capacities, pressures), capacities, pressures);
    }
  }

  /** A reduction that asks for at least everything takes everything, so equal messages then give equally. */
  lemma EverythingIsGiven(reduction: int, capacities: map<nat, int>, pressures: map<nat, real>)
    requires capacities.Keys <= pressures.Keys && reduction as real >= Tally(capacities, PositivePart())
    ensures var nothing := map i | i in capacities :: 0;
            Unfilled(capacities, nothing) &&
            var f := FillFrom(Level(reduction, nothing), capacities, pressures);
            f.Keys == capacities.Keys && forall i | i in capacities :: f[i] == MaxInt(0, capacities[i])
  {
    hide Tally;
    var nothing: map<nat, int> := map i | i in capacities :: 0;
    var f := FillFrom(Level(reduction, nothing), capacities, pressures);
    FillEnds(Level(reduction, nothing), capacities, pressures);
    TallyZero(nothing, Units());
    forall i | i in capacities ensures f[i] == MaxInt(0, capacities[i]) {
      if f[i] < MaxInt(0, capacities[i]) {
        assert i in Active(capacities, f);
        TallyTake(f, i, Units());
        TallyTake(capacities, i, PositivePart());
        TallyCompare(f - {i}, Units(), capacities - {i}, PositivePart());
        assert false;
      }
    }
  }

  // ---------------------------------------------------------------- a condition on the input alone

  /** The capacities of the messages before j, which are visited first. */
  ghost function Before(capacities: map<nat, int>, j: nat): map<nat, int> {
    map k | k in capacities && k < j :: capacities[k]
  }

  /** The pressures of all the messages that can give anything. */
  ghost function Contenders(capacities: map<nat, int>, pressures: map<nat, real>): map<nat, real>
    requires capacities.Keys <= pressures.Keys
  {
    map k | k in capacities && capacities[k] > 0 :: Max(pressures[k], PRESSURE_FLOOR)
  }

  /** Whoever comes before j takes at most its capacity. */
  lemma {:induction false} TurnAtLeast(
    l: Level, order: seq<nat>, capacities: map<nat, int>, pressures: map<nat, real>, total: real, j: nat,
    before: map<nat, int>)
    requires total > 0.0 && Visits(l, order, capacities, pressures) && j in order
    requires forall k | k in order :: l.poured[k] >= 0
    requires forall k | k in order && k < j :: k in before && before[k] == capacities[k]
    ensures TurnOf(l, order, capacities, pressures, total, j) as real
              >= l.left as real - Tally(before, PositivePart())
    decreases |order|
  {
    hide Tally, Share;
    TallyCovers(before, PositivePart());
    if l.left > 0 && order[0] != j {
      var k := order[0];
      VisitsRest(l, order, capacities, pressures, total);
      TallyTake(before, k, PositivePart());
      var next := PourOne(l, k, capacities[k], pressures[k], total);
      assert next.left >= l.left - capacities[k];
      TurnAtLeast(next, order[1..], capacities, pressures, total, j, before - {k});
    }
  }

  /** A message that has given all it can stays as it is. */
  lemma {:induction false} FullStays(l: Level, capacities: map<nat, int>, pressures: map<nat, real>, i: nat)
    requires Unfilled(capacities, l.poured) && capacities.Keys <= pressures.Keys
    requires i in capacities && l.poured[i] >= capacities[i]
    ensures var f := FillFrom(l, capacities, pressures); i in f && f[i] == l.poured[i]
    decreases l.left
  {
    hide NextRound, Turn, Share, PressureOf;
    if Running(l, capacities, pressures) {
      RoundKeeps(l, capacities, pressures);
      RoundAdds(l, capacities, pressures, i);
      FullStays(NextRound(l, capacities, pressures), capacities, pressures, i);
    }
  }

  /** Two messages described alike both give all they have when the later one's share would cover it even if
      every message before it had given its whole capacity first. */
  lemma GenerousReductionFillsBoth(
    reduction: int, capacities: map<nat, int>, pressures: map<nat, real>, i: nat, j: nat, rest: int)
    requires capacities.Keys <= pressures.Keys && Alike(capacities, pressures, i, j) && capacities[j] > 0
    requires 0 < rest && rest as real <= reduction as real - Tally(Before(capacities, j), PositivePart())
    requires var total := Tally(Contenders(capacities, pressures), Itself());
             total > 0.0 && Share(rest, pressures[j], total) >= capacities[j]
    ensures var nothing := map k | k in capacities :: 0;
            Unfilled(capacities, nothing) &&
            var f := FillFrom(Level(reduction, nothing), capacities, pressures);
            i in f && j in f && f[i] == f[j] == capacities[j]
  {
    hide Tally, Share, NextRound, Turn;
    var l := Level(reduction, map k | k in capacities :: 0);
    TallyCovers(Before(capacities, j), PositivePart());
    assert j in Active(capacities, l.poured) && i in Active(capacities, l.poured);
    assert Competing(Active(capacities, l.poured), pressures) == Contenders(capacities, pressures);
    FirstTurn(l, capacities, pressures, j);
    EarlierFindsMore(l, capacities, pressures, i, j);
    ShareGrows(rest, Turn(l, capacities, pressures, j), pressures[j], PressureOf(l, capacities, pressures));
    RoundAdds(l, capacities, pressures, i);
    RoundAdds(l, capacities, pressures, j);
    RoundKeeps(l, capacities, pressures);
    FullStays(NextRound(l, capacities, pressures), capacities, pressures, i);
    FullStays(NextRound(l, capacities, pressures), capacities, pressures, j);
  }

  lemma FirstTurn(l: Level, capacities: map<nat, int>, pressures: map<nat, real>, j: nat)
    requires Running(l, capacities, pressures) && j in Active(capacities, l.poured)
    ensures Turn(l, capacities, pressures, j) as real
              >= l.left as real - Tally(Before(capacities, j), PositivePart())
  {
    hide Tally, Share, TurnOf, PressureOf;
    RoundVisits(l, capacities, pressures);
    TurnAtLeast(l, OrderOf(Active(capacities, l.poured)), capacities, pressures,
                PressureOf(l, capacities, pressures), j,
                Before(capacities, j));
  }

  // ---------------------------------------------------------------- shares are not proportional

  const TENS: map<nat, int> := map[0 := 10, 1 := 10]
  const EVEN: map<nat, real> := map[0 := 1.0, 1 := 1.0]
  const BOTH: set<nat> := {0, 1}

  lemma EvenPressure()
    ensures Tally(Competing(BOTH, EVEN), Itself()) == 2.0 && OrderOf(BOTH) == [0, 1]
  {
    hide Tally, OrderOf;
    var m := Competing(BOTH, EVEN);
    TallyTake(m, 0, Itself());
    TallyTake(m - {0}, 1, Itself());
    TallyZero(m - {0} - {1}, Itself());
    AscendingIsUnique(OrderOf(BOTH), [0, 1], BOTH);
  }

  lemma FillOneRound(l: Level, next: Level)
    requires Unfilled(TENS, l.poured) && l.left > 0 && Active(TENS, l.poured) == BOTH
    requires next == PourAll(l, [0, 1], TENS, EVEN, 2.0)
    ensures Unfilled(TENS, next.poured) && FillFrom(l, TENS, EVEN) == FillFrom(next, TENS, EVEN)
  {
    hide Tally, OrderOf, PourAll;
    EvenPressure();
    assert 0 in Active(TENS, l.poured) && 1 in Active(TENS, l.poured);
    RoundKeeps(l, TENS, EVEN);
  }

  lemma PourTwo(l: Level)
    requires 0 in l.poured && 1 in l.poured && l.left > 0
    ensures var first := PourOne(l, 0, 10, 1.0, 2.0);
            PourAll(l, [0, 1], TENS, EVEN, 2.0) ==
              if first.left <= 0 then first else PourOne(first, 1, 10, 1.0, 2.0)
  {
    hide Share;
    assert [0, 1][1..] == [1] && [1][1..] == [];
  }

  /** Each share of a round is taken of what the earlier ones left, so two messages with the same capacity
      and the same pressure may give up different amounts: of four tokens, three and one. */
  lemma EqualMessagesMayShareUnequally()
    ensures Unfilled(TENS, map[0 := 0, 1 := 0])
    ensures FillFrom(Level(4, map[0 := 0, 1 := 0]), TENS, EVEN) == map[0 := 3, 1 := 1]
  {
    hide Tally, PourAll, OrderOf, FillFrom;
    var first, second, third: Level :=
      Level(4, map[0 := 0, 1 := 0]), Level(1, map[0 := 2, 1 := 1]), Level(0, map[0 := 3, 1 := 1]);
    PourTwo(first);
    assert Share(4, 1.0, 2.0) == 2 && Share(2, 1.0, 2.0) == 1 && Share(1, 1.0, 2.0) == 1;
    assert PourOne(first, 0, 10, 1.0, 2.0) == Level(2, map[0 := 2, 1 := 0]);
    FillOneRound(first, second);
    PourTwo(second);
    FillOneRound(second, third);
    FillStops(third);
  }

  lemma FillStops(l: Level)
    requires l.left <= 0 && Unfilled(TENS, l.poured)
    ensures FillFrom(l, TENS, EVEN) == l.poured
  {
  }
}

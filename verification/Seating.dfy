/**
 Who sits in which room object, and which object a room name leads to, apart from all else in a room.

 A name leads to a room object and every peer keeps a pointer to the object it was created with, but a room is
 deleted by its name. So that pointers and names agree is an invariant, not a definition.
 */
module Seating {
  import opened Sums

  datatype Spot<N> = Spot(name: N, ids: set<int>)

  /** `rooms` is the table by name, `spots` every room object ever made, `seats` the peers' room pointers. */
  datatype Plan<N> = Plan(rooms: map<N, nat>, spots: seq<Spot<N>>, seats: map<int, nat>)

  /** A peer sits down in the object behind the name, or in a new one. */
  function Enter<N>(p: Plan<N>, n: N, id: int): Plan<N> {
    if n in p.rooms && p.rooms[n] < |p.spots| then
      var at := p.rooms[n];
      p.(spots := p.spots[at := Spot(p.spots[at].name, p.spots[at].ids + {id})], seats := p.seats[id := at])
    else
      Plan(p.rooms[n := |p.spots|], p.spots + [Spot(n, {id})], p.seats[id := |p.spots|])
  }

  predicate Seated<N>(p: Plan<N>, id: int) {
    id in p.seats && p.seats[id] < |p.spots| && id in p.spots[p.seats[id]].ids
  }

  /** A peer gets up from the object it points to; the name goes if nobody is left there. */
  function Exit<N>(p: Plan<N>, id: int): Plan<N>
    requires Seated(p, id)
  {
    var at := p.seats[id];
    var left := p.spots[at].ids - {id};
    Plan(if left == {} then p.rooms - {p.spots[at].name} else p.rooms,
         p.spots[at := Spot(p.spots[at].name, left)], p.seats - {id})
  }

  /** A name in the table leads to an object of that name with somebody in it. */
  predicate Leads<N>(p: Plan<N>, n: N) {
    n in p.rooms && p.rooms[n] < |p.spots| && p.spots[p.rooms[n]].name == n && p.spots[p.rooms[n]].ids != {}
  }

  ghost predicate NamesLead<N>(p: Plan<N>) {
    forall n :: n in p.rooms ==> Leads(p, n)
  }

  /** An object with somebody in it is the one its name leads to. */
  ghost predicate TakenAreNamed<N>(p: Plan<N>) {
    forall at :: 0 <= at < |p.spots| && p.spots[at].ids != {} ==>
      p.spots[at].name in p.rooms && p.rooms[p.spots[at].name] == at
  }

  predicate Holds<N>(p: Plan<N>, at: nat, id: int) {
    at < |p.spots| && id in p.spots[at].ids
  }

  /** A peer is in exactly the object it points to. */
  ghost predicate SeatsMatch<N>(p: Plan<N>) {
    && (forall id :: id in p.seats ==> Holds(p, p.seats[id], id))
    && (forall at, id :: Holds(p, at, id) ==> id in p.seats && p.seats[id] == at)
  }

  function Heads<N>(p: Plan<N>): map<N, nat> {
    map n | n in p.rooms && p.rooms[n] < |p.spots| :: |p.spots[p.rooms[n]].ids|
  }

  ghost predicate Inv<N>(p: Plan<N>) {
    NamesLead(p) && TakenAreNamed(p) && SeatsMatch(p) && Sum(Heads(p)) == |p.seats|
  }

  lemma OneMoreSeat<N>(p: Plan<N>, n: N, id: int)
    requires id !in p.seats
    ensures |Enter(p, n, id).seats| == |p.seats| + 1
  {
    var seats := Enter(p, n, id).seats;
    assert seats.Keys == p.seats.Keys + {id};
    assert |seats| == |seats.Keys| && |p.seats| == |p.seats.Keys|;
  }

  lemma EnterCountsOld<N>(p: Plan<N>, n: N, id: int)
    requires NamesLead(p) && n in p.rooms && !Holds(p, p.rooms[n], id)
    ensures Sum(Heads(Enter(p, n, id))) == Sum(Heads(p)) + 1
  {
    assert Leads(p, n);
    var more := |p.spots[p.rooms[n]].ids| + 1;
    SumUpdated(Heads(p), n, more);
    assert Heads(Enter(p, n, id)) == Heads(p)[n := more] by {
      forall m | m in p.rooms && m != n ensures p.rooms[m] != p.rooms[n] {
        assert Leads(p, m);
      }
    }
  }

  lemma EnterCountsNew<N>(p: Plan<N>, n: N, id: int)
    requires NamesLead(p) && n !in p.rooms
    ensures Sum(Heads(Enter(p, n, id))) == Sum(Heads(p)) + 1
  {
    SumUpdated(Heads(p), n, 1);
    assert Heads(Enter(p, n, id)) == Heads(p)[n := 1] by {
      forall m | m in p.rooms ensures p.rooms[m] < |p.spots| {
        assert Leads(p, m);
      }
    }
  }

  lemma EnterCounts<N>(p: Plan<N>, n: N, id: int)
    requires NamesLead(p) && SeatsMatch(p) && id !in p.seats
    ensures Sum(Heads(Enter(p, n, id))) == Sum(Heads(p)) + 1
  {
    if n in p.rooms {
      EnterCountsOld(p, n, id);
    } else {
      EnterCountsNew(p, n, id);
    }
  }

  lemma EnterNames<N>(p: Plan<N>, n: N, id: int)
    requires NamesLead(p) && TakenAreNamed(p)
    ensures NamesLead(Enter(p, n, id)) && TakenAreNamed(Enter(p, n, id))
  {
    var p' := Enter(p, n, id);
    if n in p.rooms {
      assert Leads(p, n);
      assert id in p'.spots[p.rooms[n]].ids;
    }
    forall m | m in p'.rooms ensures Leads(p', m) {
      assert m in p.rooms ==> Leads(p, m);
    }
  }

  lemma EnterSeats<N>(p: Plan<N>, n: N, id: int)
    requires NamesLead(p) && SeatsMatch(p) && id !in p.seats
    ensures SeatsMatch(Enter(p, n, id))
  {
    var p' := Enter(p, n, id);
    assert n in p.rooms ==> Leads(p, n);
    var at := if n in p.rooms then p.rooms[n] else |p.spots|;
    forall x, i: nat ensures Holds(p', i, x) <==> Holds(p, i, x) || (i == at && x == id) {
    }
  }

  lemma EnterKeepsInv<N>(p: Plan<N>, n: N, id: int)
    requires Inv(p) && id !in p.seats
    ensures Inv(Enter(p, n, id))
  {
    EnterCounts(p, n, id);
    EnterNames(p, n, id);
    EnterSeats(p, n, id);
    OneMoreSeat(p, n, id);
  }

  lemma ExitNames<N>(p: Plan<N>, id: int)
    requires NamesLead(p) && TakenAreNamed(p) && Seated(p, id)
    ensures NamesLead(Exit(p, id)) && TakenAreNamed(Exit(p, id))
  {
    var p' := Exit(p, id);
    forall m | m in p'.rooms ensures Leads(p', m) {
      assert Leads(p, m);
    }
  }

  lemma ExitSeats<N>(p: Plan<N>, id: int)
    requires SeatsMatch(p) && Seated(p, id)
    ensures SeatsMatch(Exit(p, id))
  {
    var p' := Exit(p, id);
    assert forall at: nat :: Holds(p, at, id) ==> at == p.seats[id];
    forall x, i: nat ensures Holds(p', i, x) <==> Holds(p, i, x) && x != id {
    }
  }

  lemma ExitCountsStays<N>(p: Plan<N>, id: int)
    requires NamesLead(p) && Seated(p, id) && p.spots[p.seats[id]].ids != {id}
    requires Leads(p, p.spots[p.seats[id]].name) && p.rooms[p.spots[p.seats[id]].name] == p.seats[id]
    ensures Sum(Heads(Exit(p, id))) == Sum(Heads(p)) - 1
  {
    var at := p.seats[id];
    var left := p.spots[at].ids - {id};
    assert |left| == |p.spots[at].ids| - 1;
    SumUpdated(Heads(p), p.spots[at].name, |left|);
    assert Heads(Exit(p, id)) == Heads(p)[p.spots[at].name := |left|] by {
      assert left != {};
      forall m | m in p.rooms && m != p.spots[at].name ensures p.rooms[m] != at {
        assert Leads(p, m);
      }
    }
  }

  lemma ExitCountsGone<N>(p: Plan<N>, id: int)
    requires NamesLead(p) && Seated(p, id) && p.spots[p.seats[id]].ids == {id}
    requires Leads(p, p.spots[p.seats[id]].name) && p.rooms[p.spots[p.seats[id]].name] == p.seats[id]
    ensures Sum(Heads(Exit(p, id))) == Sum(Heads(p)) - 1
  {
    var at := p.seats[id];
    SumAt(Heads(p), p.spots[at].name);
    assert Heads(Exit(p, id)) == Heads(p) - {p.spots[at].name} by {
      forall m | m in p.rooms && m != p.spots[at].name ensures p.rooms[m] != at {
        assert Leads(p, m);
      }
    }
  }

  lemma OneSeatLess<N>(p: Plan<N>, id: int)
    requires Seated(p, id)
    ensures |Exit(p, id).seats| == |p.seats| - 1
  {
    var seats := Exit(p, id).seats;
    assert seats.Keys == p.seats.Keys - {id};
    assert |seats| == |seats.Keys| && |p.seats| == |p.seats.Keys|;
  }

  lemma ExitKeepsInv<N>(p: Plan<N>, id: int)
    requires Inv(p) && Seated(p, id)
    ensures Inv(Exit(p, id))
  {
    var at := p.seats[id];
    assert Leads(p, p.spots[at].name);
    if p.spots[at].ids == {id} {
      ExitCountsGone(p, id);
    } else {
      ExitCountsStays(p, id);
    }
    ExitNames(p, id);
    ExitSeats(p, id);
    OneSeatLess(p, id);
  }
}

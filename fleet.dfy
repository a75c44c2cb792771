/** The shuttles ("EVs") the app lists, their seed data, the seat update
    that boarding applies to the list, and the lookup by id. */
module Fleet {
  import opened Wrappers

  /** One shuttle. Its map coordinates are not modelled. */
  datatype Vehicle = Vehicle(id: int, title: string, eta: string, seats: int, status: string, route: string)

  const SeatsAvailable: string := "Seats available"
  const LittleBusy: string := "Little busy"
  const NoSeats: string := "No seats"

  /** The three seeded shuttles (`initialEVs`). */
  const InitialEVs: seq<Vehicle> := [
    Vehicle(1, "Buggy (EV-01)", "5 min", 4, SeatsAvailable, "Hostel 6 to Main gate"),
    Vehicle(2, "Buggy (EV-02)", "9 min", 2, LittleBusy, "Hostel 6 to Main gate"),
    Vehicle(3, "Buggy (EV-03)", "15 min", 0, NoSeats, "Hostel 6 to Main gate")
  ]

  /** A shuttle whose seat count is non-negative and whose label says
      "No seats" exactly when it has none. */
  predicate Consistent(v: Vehicle) {
    v.seats >= 0 && (v.status == NoSeats <==> v.seats == 0)
  }

  predicate AllConsistent(evs: seq<Vehicle>) {
    forall i :: 0 <= i < |evs| ==> Consistent(evs[i])
  }

  predicate UniqueIds(evs: seq<Vehicle>) {
    forall i, j :: 0 <= i < j < |evs| ==> evs[i].id != evs[j].id
  }

  predicate HasId(evs: seq<Vehicle>, id: int) {
    exists i :: 0 <= i < |evs| && evs[i].id == id
  }

  /** The per-vehicle update of `finalizeBoarding`: one seat fewer, never
      below zero, and the label recomputed from the new count. */
  function Boarded(v: Vehicle): (r: Vehicle)
    ensures r.seats == (if v.seats > 0 then v.seats - 1 else 0)
    ensures r.status == (if r.seats == 0 then NoSeats else SeatsAvailable)
    ensures Consistent(r)
    ensures r.id == v.id && r.title == v.title && r.eta == v.eta && r.route == v.route
  {
    var left := Max(0, v.seats - 1);
    v.(seats := left, status := if left > 0 then SeatsAvailable else NoSeats)
  }

  /** The `prev.map(...)` of `finalizeBoarding`: every shuttle with the given
      id is boarded, every other one is kept, in the same order. */
  function BoardSelected(evs: seq<Vehicle>, id: int): (r: seq<Vehicle>)
    ensures |r| == |evs|
    ensures forall i :: 0 <= i < |evs| && evs[i].id == id ==> r[i] == Boarded(evs[i])
    ensures forall i :: 0 <= i < |evs| && evs[i].id != id ==> r[i] == evs[i]
  {
    if evs == [] then []
    else [if evs[0].id == id then Boarded(evs[0]) else evs[0]] + BoardSelected(evs[1..], id)
  }

  /** `evs.find((x) => x.id === id)`: the first shuttle with that id. */
  function Find(evs: seq<Vehicle>, id: int): (r: Option<Vehicle>)
    ensures r.None? <==> !HasId(evs, id)
    ensures r.Some? ==> exists i :: 0 <= i < |evs| && evs[i] == r.value && r.value.id == id
                                    && forall j :: 0 <= j < i ==> evs[j].id != id
  {
    if evs == [] then None
    else if evs[0].id == id then Some(evs[0])
    else
      var r := Find(evs[1..], id);
      assert forall i :: 1 <= i < |evs| ==> evs[i] == evs[1..][i - 1];
      r
  }

  /** The `latestEV` of the details and payment screens:
      `evs.find((x) => x.id === selected.id) || selected` — the current copy of
      the selected shuttle, or the stored snapshot when its id is gone. */
  function Latest(evs: seq<Vehicle>, selected: Vehicle): (r: Vehicle)
    ensures HasId(evs, selected.id) ==> r in evs && r.id == selected.id
    ensures !HasId(evs, selected.id) ==> r == selected
  {
    match Find(evs, selected.id)
    case Some(v) => v
    case None => selected
  }

  /** Total number of free seats across the list. */
  function TotalSeats(evs: seq<Vehicle>): (total: int) {
    if evs == [] then 0 else evs[0].seats + TotalSeats(evs[1..])
  }

  /** Boarding keeps every shuttle consistent and the ids as they were. */
  lemma BoardingKeepsFleetValid(evs: seq<Vehicle>, id: int)
    requires AllConsistent(evs) && UniqueIds(evs)
    ensures AllConsistent(BoardSelected(evs, id)) && UniqueIds(BoardSelected(evs, id))
    ensures forall k :: HasId(BoardSelected(evs, id), k) <==> HasId(evs, k)
  {
  }

  /** With unique ids, boarding takes exactly one seat off the list when the
      selected shuttle has one, and none when it is already full. */
  lemma {:induction false} BoardingTakesOneSeat(evs: seq<Vehicle>, id: int)
    requires AllConsistent(evs) && UniqueIds(evs)
    ensures TotalSeats(BoardSelected(evs, id)) ==
            TotalSeats(evs) - (if Find(evs, id).Some? && Find(evs, id).value.seats > 0 then 1 else 0)
  {
    if evs != [] {
      var rest := evs[1..];
      assert BoardSelected(evs, id)[1..] == BoardSelected(rest, id);
      if evs[0].id == id {
        assert !HasId(rest, id);
        NoneSelectedUnchanged(rest, id);
      } else {
        BoardingTakesOneSeat(rest, id);
      }
    }
  }

  /** Boarding an id that is not in the list changes nothing. */
  lemma NoneSelectedUnchanged(evs: seq<Vehicle>, id: int)
    requires !HasId(evs, id)
    ensures BoardSelected(evs, id) == evs
  {
  }

  /** After boarding, looking the shuttle up again finds its boarded copy. */
  lemma {:induction false} FindAfterBoarding(evs: seq<Vehicle>, id: int)
    requires Find(evs, id).Some?
    ensures Find(BoardSelected(evs, id), id) == Some(Boarded(Find(evs, id).value))
  {
    var boarded := BoardSelected(evs, id);
    if evs[0].id != id {
      assert boarded[1..] == BoardSelected(evs[1..], id);
      FindAfterBoarding(evs[1..], id);
    }
  }

  /** In the seed data EV-02 has two seats free and EV-03 none, so the details
      screen lets a rider go on to pay for EV-02 and refuses EV-03. */
  lemma SeedSeats()
    ensures Latest(InitialEVs, InitialEVs[1]).seats == 2
    ensures Latest(InitialEVs, InitialEVs[2]).seats == 0
  {
    assert Find(InitialEVs, 2) == Some(InitialEVs[1]);
    assert Find(InitialEVs, 3) == Some(InitialEVs[2]);
  }

  /** The seed data is consistent and its ids are distinct. */
  lemma InitialEVsValid()
    ensures AllConsistent(InitialEVs) && UniqueIds(InitialEVs)
  {
  }
}

/** The navigation page: the floor list and room list offered for the selected building,
    the nearby-facility finder and the direction text, and the page's selection state. */
module Navigation {
  import opened Wrappers
  import opened Seqs
  import opened Text
  import opened Campus

  const GroundFloor: string := "Ground Floor"

  /** The label of floor index `i`: "Ground Floor" for 0, "Floor i" above. */
  function FloorLabel(i: nat): string
  {
    if i == 0 then GroundFloor else "Floor " + NatToString(i)
  }

  /** The room-number prefix that puts a room on floor index `i`. */
  function FloorPrefix(i: nat): string
  {
    if i == 0 then "G" else NatToString(i)
  }

  function HasPrefix(prefix: string): Room -> bool
  {
    (r: Room) => StartsWith(r.roomNo, prefix)
  }

  /** The labels offered for a building with `count` floors. */
  function FloorLabels(count: nat): seq<string>
  {
    seq(count, i requires 0 <= i => FloorLabel(i))
  }

  /** `floors`: the labels for the selected building, or none when no building has that id. */
  function Floors(buildings: seq<Building>, selectedBuilding: string): (r: seq<string>)
    ensures forall i :: 0 <= i < |r| ==> r[i] == FloorLabel(i)
    ensures (r == [] && forall k :: 0 <= k < |buildings| ==> buildings[k].id != selectedBuilding)
         || (exists k :: 0 <= k < |buildings| && buildings[k].id == selectedBuilding
                         && (forall j :: 0 <= j < k ==> buildings[j].id != selectedBuilding)
                         && |r| == buildings[k].floors)
  {
    match FindBuilding(buildings, selectedBuilding)
    case None => []
    case Some(b) => FloorLabels(b.floors)
  }

  lemma FloorLabelHead(i: nat)
    ensures |FloorLabel(i)| > 0 && FloorLabel(i)[0] == if i == 0 then 'G' else 'F'
  {
  }

  lemma FloorLabelInjective(i: nat, j: nat)
    requires FloorLabel(i) == FloorLabel(j)
    ensures i == j
  {
    FloorLabelHead(i);
    FloorLabelHead(j);
    if i != 0 && j != 0 {
      var a, b := NatToString(i), NatToString(j);
      assert a == ("Floor " + a)[6..] && b == ("Floor " + b)[6..];
      NatToStringInjective(i, j);
    }
  }

  /** `floors.indexOf(label)` finds the floor index the label was generated for. */
  lemma FloorIndexOfLabel(count: nat, i: nat)
    requires i < count
    ensures IndexOf(FloorLabels(count), FloorLabel(i)) == i
  {
    var labels := FloorLabels(count);
    var k := IndexOf(labels, FloorLabel(i));
    assert labels[i] == FloorLabel(i);
    assert 0 <= k;
    FloorLabelInjective(k, i);
  }

  /** The room filter's test for the floor at position `floorIndex` of the floor list. */
  function OnFloorAt(floorIndex: int): Room -> bool
  {
    (r: Room) =>
      if floorIndex == 0 then StartsWith(r.roomNo, "G")
      else if floorIndex > 0 then StartsWith(r.roomNo, NatToString(floorIndex))
      else false
  }

  /** `rooms`: the selected building's rooms on the selected floor. */
  function RoomsOnFloor(buildings: seq<Building>, selectedBuilding: string, selectedFloor: string): (r: seq<Room>)
    ensures (forall k :: 0 <= k < |buildings| ==> buildings[k].id != selectedBuilding) ==> r == []
    ensures forall room :: room in r ==>
              exists i: nat :: selectedFloor == FloorLabel(i) && StartsWith(room.roomNo, FloorPrefix(i))
  {
    match FindBuilding(buildings, selectedBuilding)
    case None => []
    case Some(b) => Filter(b.rooms, OnFloorAt(IndexOf(FloorLabels(b.floors), selectedFloor)))
  }

  /** For a label in the floor list, the room list is exactly the building's rooms whose
      number starts with that floor's prefix, in source order; for any other label, or
      for an unknown building, it is empty. */
  lemma {:induction false} RoomsOnFloorByPrefix(buildings: seq<Building>, selectedBuilding: string, selectedFloor: string)
    ensures (forall k :: 0 <= k < |buildings| ==> buildings[k].id != selectedBuilding)
            ==> RoomsOnFloor(buildings, selectedBuilding, selectedFloor) == []
    ensures forall k :: 0 <= k < |buildings| && buildings[k].id == selectedBuilding
                        && (forall j :: 0 <= j < k ==> buildings[j].id != selectedBuilding) ==>
              var rooms := RoomsOnFloor(buildings, selectedBuilding, selectedFloor);
              (selectedFloor !in FloorLabels(buildings[k].floors) ==> rooms == [])
              && (forall i: nat :: i < buildings[k].floors && selectedFloor == FloorLabel(i) ==>
                    rooms == Filter(buildings[k].rooms, HasPrefix(FloorPrefix(i)))
                    && IsSubseq(rooms, buildings[k].rooms)
                    && forall r :: r in rooms <==> r in buildings[k].rooms && StartsWith(r.roomNo, FloorPrefix(i)))
  {
    forall k | 0 <= k < |buildings| && buildings[k].id == selectedBuilding
                 && (forall j :: 0 <= j < k ==> buildings[j].id != selectedBuilding)
      ensures var rooms := RoomsOnFloor(buildings, selectedBuilding, selectedFloor);
              (selectedFloor !in FloorLabels(buildings[k].floors) ==> rooms == [])
              && (forall i: nat :: i < buildings[k].floors && selectedFloor == FloorLabel(i) ==>
                    rooms == Filter(buildings[k].rooms, HasPrefix(FloorPrefix(i)))
                    && IsSubseq(rooms, buildings[k].rooms)
                    && forall r :: r in rooms <==> r in buildings[k].rooms && StartsWith(r.roomNo, FloorPrefix(i)))
    {
      var b := buildings[k];
      var found := FindBuilding(buildings, selectedBuilding);
      assert found == Some(b) by {
        var m :| 0 <= m < |buildings| && buildings[m] == found.value && found.value.id == selectedBuilding
                 && forall j :: 0 <= j < m ==> buildings[j].id != selectedBuilding;
        assert m == k;
      }
      var labels := FloorLabels(b.floors);
      var rooms := RoomsOnFloor(buildings, selectedBuilding, selectedFloor);
      assert rooms == Filter(b.rooms, OnFloorAt(IndexOf(labels, selectedFloor)));
      if selectedFloor !in labels {
        FilterEmpty(b.rooms, OnFloorAt(-1));
      }
      forall i: nat | i < b.floors && selectedFloor == FloorLabel(i)
        ensures rooms == Filter(b.rooms, HasPrefix(FloorPrefix(i)))
        ensures IsSubseq(rooms, b.rooms)
        ensures forall r :: r in rooms <==> r in b.rooms && StartsWith(r.roomNo, FloorPrefix(i))
      {
        FloorIndexOfLabel(b.floors, i);
        FilterSame(b.rooms, OnFloorAt(i), HasPrefix(FloorPrefix(i)));
        FilterIsSubseq(b.rooms, HasPrefix(FloorPrefix(i)));
        forall r ensures r in rooms <==> r in b.rooms && StartsWith(r.roomNo, FloorPrefix(i)) {
          FilterMember(b.rooms, HasPrefix(FloorPrefix(i)), r);
        }
      }
    }
  }

  lemma {:induction false} FilterEmpty(rooms: seq<Room>, p: Room -> bool)
    requires forall r :: !p(r)
    ensures Filter(rooms, p) == []
  {
    if rooms != [] {
      FilterEmpty(rooms[1..], p);
    }
  }

  /** `floor.split(" ")[1]` as `startsWith` receives it: a missing second word is
      `undefined`, which `startsWith` converts to the string "undefined". */
  function SecondWord(floor: string): string
  {
    var words := Split(floor, ' ');
    if |words| > 1 then words[1] else "undefined"
  }

  lemma SecondWordOfFloorLabel(i: nat)
    requires i > 0
    ensures SecondWord(FloorLabel(i)) == NatToString(i)
  {
    var d := NatToString(i);
    assert FloorLabel(i) == "Floor" + [' '] + d;
    SplitAtFirst("Floor", ' ', d);
    assert ' ' !in d;
    SplitNoSeparator(d, ' ');
  }

  /** `Math.abs(currentNum - otherNum) <= 2` on the parsed room ordinals; NaN on either
      side makes the comparison false. */
  predicate WithinTwo(roomNo: string, otherNo: string)
  {
    match (RoomOrdinal(roomNo), RoomOrdinal(otherNo))
    case (Some(x), Some(y)) => -2 <= x as int - y as int <= 2
    case _ => false
  }

  /** The first filter of `nearbyFacilities`: same floor (by prefix), close by number,
      and not the target room itself. */
  function NearTarget(floor: string, roomNo: string): Room -> bool
  {
    (r: Room) =>
      if floor == GroundFloor && StartsWith(r.roomNo, "G") then
        WithinTwo(roomNo, r.roomNo) && r.roomNo != roomNo
      else if floor != GroundFloor then
        StartsWith(r.roomNo, SecondWord(floor)) && WithinTwo(roomNo, r.roomNo) && r.roomNo != roomNo
      else false
  }

  /** The second filter: the lower-cased name mentions a lab, toilet, washroom or class. */
  predicate IsLandmark(r: Room)
  {
    var name := Lower(r.roomName);
    Contains(name, "lab") || Contains(name, "toilet") || Contains(name, "washroom") || Contains(name, "class")
  }

  /** `nearbyFacilities`: filter, filter again, keep the first two. */
  function NearbyFacilities(rooms: seq<Room>, floor: string, roomNo: string): (r: seq<Room>)
    ensures |r| <= 2
    ensures forall room :: room in r ==> room.roomNo != roomNo && IsLandmark(room)
  {
    var near := Filter(rooms, NearTarget(floor, roomNo));
    var marked := Filter(near, IsLandmark);
    var r := Take(marked, 2);
    assert forall x :: x in r ==> x in marked && x in near && NearTarget(floor, roomNo)(x);
    r
  }

  /** Everything a nearby room must satisfy, as one test. */
  predicate Qualifies(floor: string, roomNo: string, r: Room)
  {
    NearTarget(floor, roomNo)(r) && IsLandmark(r)
  }

  /** The nearby rooms are the first two qualifying rooms in source order (not the two
      closest), and when fewer than two are returned every qualifying room is among them. */
  lemma NearbyFacilitiesFirstTwo(rooms: seq<Room>, floor: string, roomNo: string)
    ensures NearbyFacilities(rooms, floor, roomNo) == Take(Filter(rooms, r => Qualifies(floor, roomNo, r)), 2)
    ensures |NearbyFacilities(rooms, floor, roomNo)| < 2 ==>
              forall r :: r in rooms && Qualifies(floor, roomNo, r) ==> r in NearbyFacilities(rooms, floor, roomNo)
  {
    var q := r => Qualifies(floor, roomNo, r);
    FilterTwice(rooms, NearTarget(floor, roomNo), IsLandmark, q);
    forall r | r in rooms && Qualifies(floor, roomNo, r) {
      FilterMember(rooms, q, r);
    }
  }

  /** At most two nearby rooms, taken from the building's rooms in order, none of them the
      target, each on the requested floor by prefix, each with a parsed number within two of
      the target's, each a lab, toilet, washroom or class room. */
  lemma NearbyFacilitiesSound(rooms: seq<Room>, floor: string, roomNo: string)
    ensures var near := NearbyFacilities(rooms, floor, roomNo);
            |near| <= 2 && IsSubseq(near, rooms)
            && forall r :: r in near ==>
                 r.roomNo != roomNo && IsLandmark(r)
                 && (floor == GroundFloor ==> StartsWith(r.roomNo, "G"))
                 && (floor != GroundFloor ==> StartsWith(r.roomNo, SecondWord(floor)))
                 && RoomOrdinal(roomNo).Some? && RoomOrdinal(r.roomNo).Some?
                 && -2 <= RoomOrdinal(roomNo).value - RoomOrdinal(r.roomNo).value <= 2
  {
    var q := r => Qualifies(floor, roomNo, r);
    NearbyFacilitiesFirstTwo(rooms, floor, roomNo);
    var all := Filter(rooms, q);
    var near := NearbyFacilities(rooms, floor, roomNo);
    FilterIsSubseq(rooms, q);
    PrefixIsSubseq(all, rooms, |near|);
    assert near == all[..|near|];
    forall r | r in near
      ensures r.roomNo != roomNo && IsLandmark(r)
      ensures floor == GroundFloor ==> StartsWith(r.roomNo, "G")
      ensures floor != GroundFloor ==> StartsWith(r.roomNo, SecondWord(floor))
      ensures RoomOrdinal(roomNo).Some? && RoomOrdinal(r.roomNo).Some?
      ensures -2 <= RoomOrdinal(roomNo).value - RoomOrdinal(r.roomNo).value <= 2
    {
      assert r in all;
      assert Qualifies(floor, roomNo, r);
    }
  }

  /** On a floor from the floor list, every nearby room is also in that floor's room list. */
  lemma NearbyOnListedFloor(rooms: seq<Room>, i: nat, roomNo: string)
    ensures forall r :: r in NearbyFacilities(rooms, FloorLabel(i), roomNo) ==>
              r in Filter(rooms, HasPrefix(FloorPrefix(i)))
  {
    var floor := FloorLabel(i);
    NearbyFacilitiesSound(rooms, floor, roomNo);
    var near := NearbyFacilities(rooms, floor, roomNo);
    FilterIsSubseq(Filter(rooms, NearTarget(floor, roomNo)), IsLandmark);
    if i > 0 {
      SecondWordOfFloorLabel(i);
    }
    forall r | r in near ensures r in Filter(rooms, HasPrefix(FloorPrefix(i))) {
      assert r in Filter(Filter(rooms, NearTarget(floor, roomNo)), IsLandmark);
      FilterMember(Filter(rooms, NearTarget(floor, roomNo)), IsLandmark, r);
      FilterMember(rooms, NearTarget(floor, roomNo), r);
      FilterMember(rooms, HasPrefix(FloorPrefix(i)), r);
    }
  }

  /** A target number with no digit parses to NaN, so nothing is nearby. */
  lemma NearbyNeedsTargetDigits(rooms: seq<Room>, floor: string, roomNo: string)
    requires forall k :: 0 <= k < |roomNo| ==> !IsDigit(roomNo[k])
    ensures NearbyFacilities(rooms, floor, roomNo) == []
  {
    NearbyFacilitiesSound(rooms, floor, roomNo);
  }

  /** How a nearby room is named in step 4. */
  function Describe(r: Room): string
  {
    r.roomName + " (" + r.roomNo + ")"
  }

  function DescribeAll(rooms: seq<Room>): seq<string>
  {
    seq(|rooms|, i requires 0 <= i < |rooms| => Describe(rooms[i]))
  }

  const BuildingNotFound: string := "Building not found."
  const RoomNotFound: string := "Room not found."

  function EntryStep(b: Building): string
  {
    "1. Enter the " + b.name + " building from the main entrance."
  }

  function FloorStep(floor: string): string
  {
    if floor == GroundFloor then "2. You are already on the Ground Floor."
    else "2. Take the stairs or elevator to reach " + floor + "."
  }

  function RoomStep(roomNo: string, room: Room): string
  {
    "3. Look for Room " + roomNo + " (" + room.roomName + ")."
  }

  function NearbyStep(near: seq<Room>): string
  {
    "4. The room is located near " + Join(DescribeAll(near), " and ") + "."
  }

  function DepartmentStep(room: Room): string
  {
    "5. The room belongs to the " + room.department + " department."
  }

  /** `getDetailedDirections`, one string per paragraph. */
  function Directions(buildings: seq<Building>, buildingId: string, floor: string, roomNo: string): (r: seq<string>)
    ensures |r| == 1 || |r| == 4 || |r| == 5
    ensures (forall i :: 0 <= i < |buildings| ==> buildings[i].id != buildingId) <==> r == [BuildingNotFound]
  {
    match FindBuilding(buildings, buildingId)
    case None => [BuildingNotFound]
    case Some(b) =>
      match FindRoom(b.rooms, roomNo)
      case None => [RoomNotFound]
      case Some(room) =>
        var near := NearbyFacilities(b.rooms, floor, roomNo);
        [EntryStep(b), FloorStep(floor), RoomStep(roomNo, room)]
        + (if |near| > 0 then [NearbyStep(near)] else [])
        + [DepartmentStep(room)]
  }

  /** For a known building, "Room not found." alone is the answer exactly when no room of
      the first building with that id has the room number. */
  lemma DirectionsRoomNotFound(buildings: seq<Building>, buildingId: string, floor: string, roomNo: string, k: nat)
    requires k < |buildings| && buildings[k].id == buildingId
    requires forall j :: 0 <= j < k ==> buildings[j].id != buildingId
    ensures (forall i :: 0 <= i < |buildings[k].rooms| ==> buildings[k].rooms[i].roomNo != roomNo)
            <==> Directions(buildings, buildingId, floor, roomNo) == [RoomNotFound]
  {
    FirstBuilding(buildings, buildingId, k);
  }

  lemma FirstBuilding(buildings: seq<Building>, buildingId: string, k: nat)
    requires k < |buildings| && buildings[k].id == buildingId
    requires forall j :: 0 <= j < k ==> buildings[j].id != buildingId
    ensures FindBuilding(buildings, buildingId) == Some(buildings[k])
  {
  }

  lemma FirstRoom(rooms: seq<Room>, roomNo: string, k: nat)
    requires k < |rooms| && rooms[k].roomNo == roomNo
    requires forall j :: 0 <= j < k ==> rooms[j].roomNo != roomNo
    ensures FindRoom(rooms, roomNo) == Some(rooms[k])
  {
  }

  /** For a found room: steps 1, 2, 3 and 5 always, step 4 exactly when a nearby facility
      exists; step 3 and step 5 describe the first room with that number. */
  lemma DirectionsFound(buildings: seq<Building>, buildingId: string, floor: string, roomNo: string, k: nat, j: nat)
    requires k < |buildings| && buildings[k].id == buildingId
    requires forall i :: 0 <= i < k ==> buildings[i].id != buildingId
    requires j < |buildings[k].rooms| && buildings[k].rooms[j].roomNo == roomNo
    requires forall i :: 0 <= i < j ==> buildings[k].rooms[i].roomNo != roomNo
    ensures var near := NearbyFacilities(buildings[k].rooms, floor, roomNo);
            var room := buildings[k].rooms[j];
            Directions(buildings, buildingId, floor, roomNo)
            == [EntryStep(buildings[k]), FloorStep(floor), RoomStep(roomNo, room)]
               + (if near != [] then [NearbyStep(near)] else [])
               + [DepartmentStep(room)]
  {
    FirstBuilding(buildings, buildingId, k);
    FirstRoom(buildings[k].rooms, roomNo, j);
  }

  /** Step 2 says "already on the Ground Floor" exactly for the ground-floor label and
      otherwise names the floor to go to. */
  lemma FloorStepGround(floor: string)
    ensures FloorStep(floor) == "2. You are already on the Ground Floor." <==> floor == GroundFloor
    ensures floor != GroundFloor ==> Contains(FloorStep(floor), floor)
  {
    var s := FloorStep(floor);
    if floor != GroundFloor {
      assert s[3] == 'T';
      var prefix := "2. Take the stairs or elevator to reach ";
      assert s[|prefix|..|prefix| + |floor|] == floor;
      assert OccursAt(s, floor, |prefix|);
      ContainsAt(s, floor);
    }
  }

  /** Step 4 names one nearby room, or two joined by " and ". */
  lemma NearbyStepNames(near: seq<Room>)
    requires 1 <= |near| <= 2
    ensures |near| == 1 ==> NearbyStep(near) == "4. The room is located near " + Describe(near[0]) + "."
    ensures |near| == 2 ==> NearbyStep(near) == "4. The room is located near " + Describe(near[0]) + " and " + Describe(near[1]) + "."
  {
    var names := DescribeAll(near);
    if |near| == 2 {
      assert names[1..] == [Describe(near[1])];
      assert Join(names, " and ") == names[0] + " and " + Join(names[1..], " and ");
    }
  }

  lemma SmallRoomOrdinals()
    ensures RoomOrdinal("G01") == Some(1) && RoomOrdinal("G02") == Some(2)
  {
    assert Digits("G01") == "01" by {
      assert "G01"[1..] == "01" && "01"[1..] == "1" && "1"[1..] == [];
    }
    assert Digits("G02") == "02" by {
      assert "G02"[1..] == "02" && "02"[1..] == "2" && "2"[1..] == [];
    }
    assert "01"[..1] == "0" && "02"[..1] == "0" && "0"[..0] == [];
  }

  /** Of a room G01 and a toilet G02, only the toilet is near G01, whatever G01 is called. */
  lemma PhysicsLabNearby(lab: Room, toilet: Room)
    requires lab.roomNo == "G01" && toilet.roomNo == "G02" && toilet.roomName == "Toilet"
    ensures NearbyFacilities([lab, toilet], "Ground Floor", "G01") == [toilet]
  {
    var near := NearTarget("Ground Floor", "G01");
    OnlyToiletNear(lab, toilet);
    assert Filter([lab, toilet], near) == [toilet] by {
      assert [lab, toilet][1..] == [toilet] && [toilet][1..] == [];
    }
    ToiletIsLandmark(toilet);
    assert Filter([toilet], IsLandmark) == [toilet] by {
      assert [toilet][1..] == [];
    }
  }

  lemma OnlyToiletNear(lab: Room, toilet: Room)
    requires lab.roomNo == "G01" && toilet.roomNo == "G02"
    ensures !NearTarget("Ground Floor", "G01")(lab) && NearTarget("Ground Floor", "G01")(toilet)
  {
    SmallRoomOrdinals();
    assert StartsWith("G02", "G");
    assert WithinTwo("G01", "G02");
  }

  lemma ToiletIsLandmark(toilet: Room)
    requires toilet.roomName == "Toilet"
    ensures IsLandmark(toilet)
  {
    assert Lower("Toilet") == "toilet";
    assert StartsWith("toilet", "toilet");
  }

  /** A ground-floor lab next to a toilet: the directions to the lab have all five steps,
      and step 4 names the toilet and nothing else. */
  lemma DirectionsToPhysicsLab(lab: Room, toilet: Room, b: Building)
    requires lab == Room("G01", "Physics Lab", "Physics") && toilet == Room("G02", "Toilet", "Facilities")
    requires b == Building("SJT", "SJT", 1, [lab, toilet])
    ensures Directions([b], "SJT", "Ground Floor", "G01")
            == [EntryStep(b), FloorStep("Ground Floor"), RoomStep("G01", lab),
                NearbyStep([toilet]), DepartmentStep(lab)]
  {
    PhysicsLabNearby(lab, toilet);
    assert b.rooms[0] == lab;
    DirectionsFound([b], "SJT", "Ground Floor", "G01", 0, 0);
    FiveSteps(EntryStep(b), FloorStep("Ground Floor"), RoomStep("G01", lab), NearbyStep([toilet]), DepartmentStep(lab));
  }

  lemma FiveSteps(entry: string, floor: string, room: string, near: string, department: string)
    ensures [entry, floor, room] + [near] + [department] == [entry, floor, room, near, department]
  {
  }

  /** The selections of the navigation page. */
  class NavigationPage {
    const buildings: seq<Building>
    var selectedBuilding: string
    var selectedFloor: string
    var selectedRoom: string
    var showMap: bool

    /** Each choice is made only after the one upstream of it: the floor select appears
        once a building is chosen, the room select once a floor is chosen, the Navigate
        button once a room is chosen. */
    ghost predicate Valid()
      reads this
    {
      (selectedFloor != "" ==> selectedBuilding != "")
      && (selectedRoom != "" ==> selectedFloor != "")
      && (showMap ==> selectedRoom != "")
    }

    constructor (buildings: seq<Building>)
      ensures Valid()
      ensures this.buildings == buildings
      ensures selectedBuilding == "" && selectedFloor == "" && selectedRoom == "" && !showMap
    {
      this.buildings := buildings;
      selectedBuilding := "";
      selectedFloor := "";
      selectedRoom := "";
      showMap := false;
    }

    /** The building select's change handler: clears the floor, the room and the map. */
    method ChooseBuilding(value: string)
      requires Valid()
      modifies this
      ensures Valid()
      ensures selectedBuilding == value
      ensures selectedFloor == "" && selectedRoom == "" && !showMap
    {
      selectedBuilding := value;
      selectedFloor := "";
      selectedRoom := "";
      showMap := false;
    }

    /** The floor select's change handler: keeps the building, clears the room and the map. */
    method ChooseFloor(value: string)
      requires Valid() && selectedBuilding != ""
      modifies this
      ensures Valid()
      ensures selectedBuilding == old(selectedBuilding) && selectedFloor == value
      ensures selectedRoom == "" && !showMap
    {
      selectedFloor := value;
      selectedRoom := "";
      showMap := false;
    }

    /** The room select's change handler: keeps building and floor, clears the map. */
    method ChooseRoom(value: string)
      requires Valid() && selectedFloor != ""
      modifies this
      ensures Valid()
      ensures selectedBuilding == old(selectedBuilding) && selectedFloor == old(selectedFloor)
      ensures selectedRoom == value && !showMap
    {
      selectedRoom := value;
      showMap := false;
    }

    /** `handleNavigate`: shows the map and the directions. */
    method Navigate()
      requires Valid() && selectedRoom != ""
      modifies this`showMap
      ensures Valid() && showMap
    {
      showMap := true;
    }

    /** The Reset button: hides the map, keeps every selection. */
    method Reset()
      requires Valid()
      modifies this`showMap
      ensures Valid() && !showMap
    {
      showMap := false;
    }

    /** The directions panel: shown while the map is shown and all three selections are made. */
    function ShownDirections(): (r: Option<seq<string>>)
      reads this
      requires Valid()
      ensures r.Some? <==> showMap
      ensures r.Some? ==> r.value == Directions(buildings, selectedBuilding, selectedFloor, selectedRoom)
    {
      if showMap && selectedBuilding != "" && selectedFloor != "" && selectedRoom != "" then
        Some(Directions(buildings, selectedBuilding, selectedFloor, selectedRoom))
      else None
    }
  }
}

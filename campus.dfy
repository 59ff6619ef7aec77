/** The dataset both pages read: buildings, each with an ordered list of rooms.
    The dataset itself is an input of every query; its contents are not modelled. */
module Campus {
  import opened Wrappers

  /** The room fields the pages read. */
  datatype Room = Room(roomNo: string, roomName: string, department: string)

  /** The building fields the pages read; `floors` is the floor count. */
  datatype Building = Building(id: string, name: string, floors: nat, rooms: seq<Room>)

  /** `buildings.find((b) => b.id === id)`: the first building with that id. */
  function FindBuilding(buildings: seq<Building>, id: string): (r: Option<Building>)
    ensures r.None? <==> forall i :: 0 <= i < |buildings| ==> buildings[i].id != id
    ensures r.Some? ==> exists i :: 0 <= i < |buildings| && buildings[i] == r.value
                                    && r.value.id == id
                                    && forall j :: 0 <= j < i ==> buildings[j].id != id
  {
    if buildings == [] then None
    else if buildings[0].id == id then Some(buildings[0])
    else
      FindBuilding(buildings[1..], id)
  }

  /** `building.rooms.find((r) => r.roomNo === roomNo)`: the first room with that number. */
  function FindRoom(rooms: seq<Room>, roomNo: string): (r: Option<Room>)
    ensures r.None? <==> forall i :: 0 <= i < |rooms| ==> rooms[i].roomNo != roomNo
    ensures r.Some? ==> exists i :: 0 <= i < |rooms| && rooms[i] == r.value
                                    && r.value.roomNo == roomNo
                                    && forall j :: 0 <= j < i ==> rooms[j].roomNo != roomNo
  {
    if rooms == [] then None
    else if rooms[0].roomNo == roomNo then Some(rooms[0])
    else
      FindRoom(rooms[1..], roomNo)
  }
}

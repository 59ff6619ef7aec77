/** The search page: every room of every building whose name, number or department
    contains the query, ignoring ASCII case, as result records in dataset order. */
module Search {
  import opened Seqs
  import opened Text
  import opened Campus
  import Navigation

  /** One search hit, with the floor label the search page derives. */
  datatype SearchResult = SearchResult(
    buildingId: string,
    buildingName: string,
    roomNo: string,
    roomName: string,
    floor: string,
    department: string)

  /** The search page's floor label: a hard-coded table on the first character of the
      room number. The label is "Ground Floor" exactly for room numbers not starting with
      1, 2 or 3, so every number starting with 4 to 9, or with no recognised prefix at all,
      is reported on the ground floor. */
  function SearchFloorLabel(roomNo: string): (floor: string)
    ensures floor == "Ground Floor"
            <==> !StartsWith(roomNo, "1") && !StartsWith(roomNo, "2") && !StartsWith(roomNo, "3")
    ensures StartsWith(roomNo, "1") ==> floor == "First Floor"
    ensures StartsWith(roomNo, "2") ==> floor == "Second Floor"
    ensures StartsWith(roomNo, "3") ==> floor == "Third Floor"
  {
    if StartsWith(roomNo, "G") then "Ground Floor"
    else if StartsWith(roomNo, "1") then "First Floor"
    else if StartsWith(roomNo, "2") then "Second Floor"
    else if StartsWith(roomNo, "3") then "Third Floor"
    else "Ground Floor"
  }

  /** The two pages label floors differently: the navigation page calls floor 1 "Floor 1"
      where the search page says "First Floor", and a room the navigation page files under
      floor 4 or above is reported by the search page as on the ground floor. */
  lemma FloorConventionsDiffer(roomNo: string, i: nat)
    requires 1 <= i && StartsWith(roomNo, Navigation.FloorPrefix(i))
    ensures SearchFloorLabel(roomNo) != Navigation.FloorLabel(i)
    ensures 4 <= i <= 9 ==> SearchFloorLabel(roomNo) == "Ground Floor"
  {
    var d := NatToString(i);
    assert roomNo[0] == d[0] && IsDigit(d[0]);
    if i <= 9 {
      assert d == [('0' as int + i) as char];
    }
    var text := SearchFloorLabel(roomNo);
    assert Navigation.FloorLabel(i)[..6] == "Floor ";
    if SearchFloorLabel(roomNo) == "Ground Floor" {
      assert text[0] == 'G';
    } else {
      assert text[1] == 'i' || text[1] == 'e' || text[1] == 'h';
    }
  }

  /** `room.roomName`, `room.roomNo` or `room.department`, lower-cased, includes `term`. */
  predicate RoomMatches(room: Room, term: string)
  {
    Contains(Lower(room.roomName), term) || Contains(Lower(room.roomNo), term)
    || Contains(Lower(room.department), term)
  }

  /** The record pushed for `room` of `b`. */
  function ToResult(b: Building, room: Room): SearchResult
  {
    SearchResult(b.id, b.name, room.roomNo, room.roomName, SearchFloorLabel(room.roomNo), room.department)
  }

  /** The match test read off a record; a record carries the three matched fields. */
  function Matcher(term: string): SearchResult -> bool
  {
    (rec: SearchResult) => RoomMatches(Room(rec.roomNo, rec.roomName, rec.department), term)
  }

  /** The records of `rooms` of building `b`, one per room, in order. */
  function RoomRecords(b: Building, rooms: seq<Room>): seq<SearchResult>
  {
    seq(|rooms|, j requires 0 <= j < |rooms| => ToResult(b, rooms[j]))
  }

  /** The record of every room of every building, buildings outer, rooms inner. */
  function AllRecords(buildings: seq<Building>): seq<SearchResult>
  {
    if buildings == [] then []
    else
      var last := buildings[|buildings| - 1];
      AllRecords(buildings[..|buildings| - 1]) + RoomRecords(last, last.rooms)
  }

  function TotalRooms(buildings: seq<Building>): nat
  {
    if buildings == [] then 0
    else TotalRooms(buildings[..|buildings| - 1]) + |buildings[|buildings| - 1].rooms|
  }

  /** What `performSearch` stores as the results. The query is trimmed only to test for
      emptiness; matching uses the untrimmed, lower-cased query. */
  function SearchResults(buildings: seq<Building>, query: string): (r: seq<SearchResult>)
    ensures AllWhitespace(query) ==> r == []
    ensures |r| <= TotalRooms(buildings)
    ensures forall rec :: rec in r ==> Matcher(Lower(query))(rec) && rec in AllRecords(buildings)
  {
    AllRecordsLength(buildings);
    if Trim(query) == [] then [] else Filter(AllRecords(buildings), Matcher(Lower(query)))
  }

  /** `performSearch`: nested loops over buildings and rooms, pushing each match. */
  method PerformSearch(buildings: seq<Building>, query: string) returns (results: seq<SearchResult>)
    ensures results == SearchResults(buildings, query)
  {
    if Trim(query) == [] {
      return [];
    }
    results := [];
    var term := Lower(query);
    var i := 0;
    while i < |buildings|
      invariant 0 <= i <= |buildings|
      invariant results == Filter(AllRecords(buildings[..i]), Matcher(term))
    {
      var b := buildings[i];
      var j := 0;
      InnerLoopStep(AllRecords(buildings[..i]), b, 0, term);
      while j < |b.rooms|
        invariant 0 <= j <= |b.rooms|
        invariant results == Filter(AllRecords(buildings[..i]) + RoomRecords(b, b.rooms[..j]), Matcher(term))
      {
        var room := b.rooms[j];
        var floor := "Ground Floor";
        if StartsWith(room.roomNo, "G") {
          floor := "Ground Floor";
        } else if StartsWith(room.roomNo, "1") {
          floor := "First Floor";
        } else if StartsWith(room.roomNo, "2") {
          floor := "Second Floor";
        } else if StartsWith(room.roomNo, "3") {
          floor := "Third Floor";
        }
        InnerLoopStep(AllRecords(buildings[..i]), b, j + 1, term);
        if RoomMatches(room, term) {
          results := results + [SearchResult(b.id, b.name, room.roomNo, room.roomName, floor, room.department)];
        }
        j := j + 1;
      }
      OuterLoopStep(buildings, i);
      i := i + 1;
    }
    assert buildings[..i] == buildings;
  }

  /** The outer loop's step: the records of the first `i + 1` buildings. */
  lemma OuterLoopStep(buildings: seq<Building>, i: nat)
    requires i < |buildings|
    ensures AllRecords(buildings[..i + 1])
            == AllRecords(buildings[..i]) + RoomRecords(buildings[i], buildings[i].rooms[..|buildings[i].rooms|])
  {
    assert buildings[..i + 1][..i] == buildings[..i];
    assert buildings[i].rooms[..|buildings[i].rooms|] == buildings[i].rooms;
  }

  /** The inner loop's step: what one more room adds to the results. */
  lemma InnerLoopStep(done: seq<SearchResult>, b: Building, j: nat, term: string)
    requires j <= |b.rooms|
    ensures j == 0 ==> Filter(done + RoomRecords(b, b.rooms[..j]), Matcher(term)) == Filter(done, Matcher(term))
    ensures j > 0 ==>
      var rec := ToResult(b, b.rooms[j - 1]);
      Filter(done + RoomRecords(b, b.rooms[..j]), Matcher(term))
      == Filter(done + RoomRecords(b, b.rooms[..j - 1]), Matcher(term)) + (if Matcher(term)(rec) then [rec] else [])
  {
    if j == 0 {
      assert done + RoomRecords(b, b.rooms[..0]) == done;
    } else {
      var rec := ToResult(b, b.rooms[j - 1]);
      var before := done + RoomRecords(b, b.rooms[..j - 1]);
      assert RoomRecords(b, b.rooms[..j]) == RoomRecords(b, b.rooms[..j - 1]) + [rec];
      assert done + RoomRecords(b, b.rooms[..j]) == before + [rec];
      FilterAppend(before, [rec], Matcher(term));
      assert [rec][1..] == [];
    }
  }

  /** The records are exactly one per (building, room) position. */
  lemma {:induction false} AllRecordsMember(buildings: seq<Building>, rec: SearchResult)
    ensures rec in AllRecords(buildings) <==>
            exists i, j :: 0 <= i < |buildings| && 0 <= j < |buildings[i].rooms|
                           && rec == ToResult(buildings[i], buildings[i].rooms[j])
    decreases |buildings|
  {
    if buildings != [] {
      var n := |buildings| - 1;
      var init := buildings[..n];
      var last := buildings[n];
      AllRecordsMember(init, rec);
      assert AllRecords(buildings) == AllRecords(init) + RoomRecords(last, last.rooms);
      if rec in AllRecords(buildings) {
        AllRecordsMemberFrom(buildings, rec);
      }
      if exists i, j :: 0 <= i < |buildings| && 0 <= j < |buildings[i].rooms|
                        && rec == ToResult(buildings[i], buildings[i].rooms[j]) {
        var i, j :| 0 <= i < |buildings| && 0 <= j < |buildings[i].rooms|
                    && rec == ToResult(buildings[i], buildings[i].rooms[j]);
        AllRecordsMemberInto(buildings, rec, i, j);
      }
    }
  }

  /** The other direction of `AllRecordsMember` for a non-empty dataset, given the smaller case. */
  lemma AllRecordsMemberInto(buildings: seq<Building>, rec: SearchResult, i: nat, j: nat)
    requires i < |buildings| && j < |buildings[i].rooms| && rec == ToResult(buildings[i], buildings[i].rooms[j])
    requires var init := buildings[..|buildings| - 1];
             (exists i, j :: 0 <= i < |init| && 0 <= j < |init[i].rooms| && rec == ToResult(init[i], init[i].rooms[j]))
               ==> rec in AllRecords(init)
    ensures rec in AllRecords(buildings)
  {
    var n := |buildings| - 1;
    var init := buildings[..n];
    var last := buildings[n];
    assert AllRecords(buildings) == AllRecords(init) + RoomRecords(last, last.rooms);
    if i < n {
      assert init[i] == buildings[i];
      assert rec in AllRecords(init);
    } else {
      assert RoomRecords(last, last.rooms)[j] == rec;
    }
  }

  /** One direction of `AllRecordsMember` for a non-empty dataset, given the smaller case. */
  lemma AllRecordsMemberFrom(buildings: seq<Building>, rec: SearchResult)
    requires buildings != [] && rec in AllRecords(buildings)
    requires var init := buildings[..|buildings| - 1];
             rec in AllRecords(init) ==>
               exists i, j :: 0 <= i < |init| && 0 <= j < |init[i].rooms| && rec == ToResult(init[i], init[i].rooms[j])
    ensures exists i, j :: 0 <= i < |buildings| && 0 <= j < |buildings[i].rooms|
                           && rec == ToResult(buildings[i], buildings[i].rooms[j])
  {
  }

  lemma {:induction false} AllRecordsLength(buildings: seq<Building>)
    ensures |AllRecords(buildings)| == TotalRooms(buildings)
    decreases |buildings|
  {
    if buildings != [] {
      AllRecordsLength(buildings[..|buildings| - 1]);
    }
  }

  /** An empty or whitespace-only query finds nothing; any other query is matched
      untrimmed after lower-casing. */
  lemma SearchBlankQuery(buildings: seq<Building>, query: string)
    ensures AllWhitespace(query) ==> SearchResults(buildings, query) == []
    ensures !AllWhitespace(query) ==>
              SearchResults(buildings, query) == Filter(AllRecords(buildings), Matcher(Lower(query)))
  {
  }

  /** Results come in building-major, room-minor order, each room at most once, so there
      are never more results than rooms. */
  lemma SearchOrder(buildings: seq<Building>, query: string)
    ensures IsSubseq(SearchResults(buildings, query), AllRecords(buildings))
    ensures |SearchResults(buildings, query)| <= TotalRooms(buildings)
  {
    AllRecordsLength(buildings);
    FilterIsSubseq(AllRecords(buildings), Matcher(Lower(query)));
  }

  /** Completeness and soundness at one room: its record is among the results exactly when
      the query is not blank and the room's lower-cased name, number or department contains
      the lower-cased query. */
  lemma SearchFindsRoom(buildings: seq<Building>, query: string, i: nat, j: nat)
    requires i < |buildings| && j < |buildings[i].rooms|
    ensures ToResult(buildings[i], buildings[i].rooms[j]) in SearchResults(buildings, query)
            <==> !AllWhitespace(query) && RoomMatches(buildings[i].rooms[j], Lower(query))
  {
    var rec := ToResult(buildings[i], buildings[i].rooms[j]);
    SearchBlankQuery(buildings, query);
    AllRecordsMember(buildings, rec);
    FilterMember(AllRecords(buildings), Matcher(Lower(query)), rec);
  }

  /** Every result copies the building's id and name and the room's number, name and
      department, carries the search page's floor label, and comes from a matching room. */
  lemma SearchSound(buildings: seq<Building>, query: string)
    ensures forall rec :: rec in SearchResults(buildings, query) ==>
              !AllWhitespace(query)
              && exists i, j :: 0 <= i < |buildings| && 0 <= j < |buildings[i].rooms|
                   && rec.buildingId == buildings[i].id && rec.buildingName == buildings[i].name
                   && rec.roomNo == buildings[i].rooms[j].roomNo
                   && rec.roomName == buildings[i].rooms[j].roomName
                   && rec.department == buildings[i].rooms[j].department
                   && rec.floor == SearchFloorLabel(buildings[i].rooms[j].roomNo)
                   && RoomMatches(buildings[i].rooms[j], Lower(query))
  {
    SearchBlankQuery(buildings, query);
    forall rec | rec in SearchResults(buildings, query)
      ensures !AllWhitespace(query)
      ensures exists i, j :: 0 <= i < |buildings| && 0 <= j < |buildings[i].rooms|
                   && rec.buildingId == buildings[i].id && rec.buildingName == buildings[i].name
                   && rec.roomNo == buildings[i].rooms[j].roomNo
                   && rec.roomName == buildings[i].rooms[j].roomName
                   && rec.department == buildings[i].rooms[j].department
                   && rec.floor == SearchFloorLabel(buildings[i].rooms[j].roomNo)
                   && RoomMatches(buildings[i].rooms[j], Lower(query))
    {
      FilterMember(AllRecords(buildings), Matcher(Lower(query)), rec);
      AllRecordsMember(buildings, rec);
      var i, j :| 0 <= i < |buildings| && 0 <= j < |buildings[i].rooms|
                  && rec == ToResult(buildings[i], buildings[i].rooms[j]);
      assert RoomMatches(buildings[i].rooms[j], Lower(query));
    }
  }

  /** A leading space in the query takes part in the match: " lab" does not find a room
      named "Lab" although "lab" does. */
  lemma SearchKeepsQuerySpaces(room: Room, b: Building)
    requires room == Room("G01", "Lab", "CSE") && b == Building("SJT", "Silver Jubilee Tower", 1, [room])
    ensures SearchResults([b], " lab") == [] && SearchResults([b], "lab") == [ToResult(b, room)]
  {
    assert AllRecords([b]) == [ToResult(b, room)] by {
      assert [b][..0] == [];
    }
    LabQueries(room);
    assert !AllWhitespace(" lab") by { assert !IsWhitespace(" lab"[1]); }
    assert !AllWhitespace("lab") by { assert !IsWhitespace("lab"[0]); }
    SearchBlankQuery([b], " lab");
    SearchBlankQuery([b], "lab");
    assert [ToResult(b, room)][1..] == [];
  }

  lemma LabQueries(room: Room)
    requires room == Room("G01", "Lab", "CSE")
    ensures Lower(" lab") == " lab" && Lower("lab") == "lab"
    ensures !RoomMatches(room, " lab") && RoomMatches(room, "lab")
  {
    assert Lower("Lab") == "lab";
    assert Lower("G01") == "g01";
    assert Lower("CSE") == "cse";
    assert Lower(" lab") == " lab";
    assert Lower("lab") == "lab";
    assert !Contains("lab", " lab");
    assert !Contains("g01", " lab");
    assert !Contains("cse", " lab");
    assert StartsWith("lab", "lab");
  }
}

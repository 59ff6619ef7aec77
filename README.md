# Campus navigation and search, modelled in Dafny

This project models the query logic of a campus facility directory: the navigation
page, which lists a building's floors and the rooms on a chosen floor, finds landmark
rooms near a target room and writes step-by-step directions, and keeps the
building/floor/room selection of the page; and the search page, which finds every room
whose name, number or department contains a query and reports it with a floor label.

The building dataset is not part of this model: every query takes the list of buildings
as a parameter. Files:

- `wrappers.dfy` — `Option`.
- `seqs.dfy` — `filter`, `slice(0, n)`, `indexOf`, `join`, `split`, and subsequences.
- `text.dfy` — `startsWith`, `includes`, ASCII `toLowerCase`, `trim`, `toString` of a
  non-negative integer, and `parseInt` of a digit-stripped room number.
- `campus.dfy` — rooms, buildings, and `find` by id and by room number.
- `navigation.dfy` — the floor list, the floor-scoped room filter, the nearby-facility
  finder, the direction text, and the page's selection state as a class.
- `search.dfy` — `performSearch` as a method with nested loops, proved equal to a
  filter over all (building, room) records, and the properties of that filter.

Where the navigation page and the search page disagree, both are kept: the navigation
page labels floor `i` as "Floor i" and files a room under it by the prefix `i.toString()`;
the search page uses a four-entry table ("G", "1", "2", "3") and labels every other room
number "Ground Floor". `Search.FloorConventionsDiffer` states the disagreement.

Details of JavaScript that the model keeps:

- `floor.split(" ")[1]` is `undefined` when the label has no space, and `startsWith`
  converts it to the string "undefined" (`Navigation.SecondWord`).
- `parseInt` of a string with no digit is NaN, and a comparison with NaN is false, so a
  room number without digits is never near anything (`Text.RoomOrdinal` gives `None`).
- `trim` removes the ECMAScript whitespace and line terminator characters. The query is
  trimmed only for the emptiness test; the untrimmed query is matched.

## Model

| member | source | states |
|---|---|---|
| `Campus.FindBuilding` | app/navigation/page.tsx:38 | absent exactly when no building has the id; otherwise the first building with that id |
| `Campus.FindRoom` | app/navigation/page.tsx:42 | absent exactly when no room has the number; otherwise the first room with that number |
| `Navigation.Floors` | app/navigation/page.tsx:20-22 | entry i is "Ground Floor" for i = 0 and "Floor i" above; as many entries as the first building with the selected id has floors, none when no building has it |
| `Seqs.IndexOf` | app/navigation/page.tsx:27 | -1 exactly when the label is absent, otherwise the first position holding it |
| `Navigation.FloorIndexOfLabel` | app/navigation/page.tsx:27 | looking up a generated floor label in the floor list gives back the index it was generated for |
| `Navigation.RoomsOnFloor` | app/navigation/page.tsx:25-34 | no rooms for an unknown building; every listed room starts with the prefix of the selected floor label ("G" or the decimal index); the exact list is stated by `RoomsOnFloorByPrefix` |
| `Seqs.Filter` | app/navigation/page.tsx:26-34 | `filter` keeps only elements of the input that pass the test, never more of them than the input has |
| `Navigation.RoomsOnFloorByPrefix` | app/navigation/page.tsx:25-34 | for floor label i the room list is the building's rooms starting with "G" (i = 0) or with the decimal string of i, in source order; an unknown label or building gives no rooms |
| `Navigation.NearbyFacilitiesFirstTwo` | app/navigation/page.tsx:46-71 | the nearby list is the first two rooms passing both filters, in source order, not the two closest; when fewer than two come back, every qualifying room is among them |
| `Navigation.NearbyFacilitiesSound` | app/navigation/page.tsx:46-71 | at most two rooms, a subsequence of the building's rooms, never the target number, on the floor by prefix, both numbers parse and differ by at most 2, name mentions lab, toilet, washroom or class |
| `Navigation.NearbyOnListedFloor` | app/navigation/page.tsx:54-56 | for a label from the floor list, every nearby room is also in that floor's room list |
| `Navigation.NearbyFacilities` | app/navigation/page.tsx:46-71 | at most two rooms, none with the target number and each named like a lab, toilet, washroom or class |
| `Seqs.Take` | app/navigation/page.tsx:71 | `slice(0, 2)` is a prefix of the list, of length two or the whole list when shorter |
| `Navigation.SecondWordOfFloorLabel` | app/navigation/page.tsx:55 | the second space-separated word of "Floor i" is the decimal string of i |
| `Seqs.Split` | app/navigation/page.tsx:55 | `split` returns at least one piece and no piece holds the separator |
| `Navigation.NearbyNeedsTargetDigits` | app/navigation/page.tsx:51-53 | a target room number without digits parses to NaN, so nothing is near it |
| `Text.RoomOrdinal` | app/navigation/page.tsx:51-52 | `parseInt` of the digit-stripped number is NaN exactly when the room number has no decimal digit |
| `Text.RoomOrdinalOfNumeral` | app/navigation/page.tsx:57-58 | a room number that is a decimal numeral parses back to its value |
| `Text.RoomOrdinalOfPrefixed` | app/navigation/page.tsx:51-52 | a room number made of a digit-free prefix and a numeral, such as "G01", parses to the numeral's value |
| `Text.DecimalRoundTrip` | app/navigation/page.tsx:31 | reading the digits that `toString` writes gives back the number |
| `Text.NatToString` | app/navigation/page.tsx:31 | `toString` of an index is a non-empty string of decimal digits with no leading zero except for 0 itself |
| `Seqs.JoinSplit` | app/navigation/page.tsx:55 | joining the pieces of `split` with the separator rebuilds the string |
| `Navigation.Directions` | app/navigation/page.tsx:36-43 | one step for a not-found result, four or five otherwise; "Building not found." alone exactly when no building has the id |
| `Navigation.DirectionsRoomNotFound` | app/navigation/page.tsx:42-43 | for a known building, "Room not found." alone exactly when no room of it has the number |
| `Navigation.DirectionsFound` | app/navigation/page.tsx:74-89 | for a found room: entry, floor and room steps, the nearby step exactly when a nearby facility exists, and the department step last |
| `Navigation.FloorStepGround` | app/navigation/page.tsx:77-81 | step 2 says "already on the Ground Floor" exactly for the "Ground Floor" label, and otherwise names the floor |
| `Navigation.NearbyStepNames` | app/navigation/page.tsx:86 | step 4 names one nearby room as "name (number)", or two joined by " and " |
| `Seqs.Join` | app/navigation/page.tsx:86 | `join` of no parts is empty and of one part is that part; with two or more parts the result is at least as long as the first part and the separator |
| `Seqs.JoinEnds` | app/navigation/page.tsx:86 | the joined string starts with the first part and ends with the last part |
| `Navigation.DirectionsToPhysicsLab` | app/navigation/page.tsx:46-89 | directions to a ground-floor lab beside a toilet have five steps, step 4 naming only the toilet |
| `Navigation.NavigationPage.constructor` | app/navigation/page.tsx:11-14 | nothing selected and the map hidden |
| `Navigation.NavigationPage.ChooseBuilding` | app/navigation/page.tsx:115-120 | sets the building and clears floor, room and map |
| `Navigation.NavigationPage.ChooseFloor` | app/navigation/page.tsx:140-144 | keeps the building, sets the floor, clears room and map |
| `Navigation.NavigationPage.ChooseRoom` | app/navigation/page.tsx:165-168 | keeps building and floor, sets the room, hides the map |
| `Navigation.NavigationPage.Navigate` | app/navigation/page.tsx:93-95 | shows the map; each selection still has the ones upstream of it |
| `Navigation.NavigationPage.Reset` | app/navigation/page.tsx:211 | hides the map, keeping the selections |
| `Navigation.NavigationPage.ShownDirections` | app/navigation/page.tsx:239-243 | directions are shown exactly while the map is shown, for the current selections |
| `Search.SearchFloorLabel` | app/search/page.tsx:40-49 | "First", "Second", "Third Floor" for a "1", "2", "3" prefix; "Ground Floor" exactly for every other room number |
| `Search.FloorConventionsDiffer` | app/search/page.tsx:40-49 | the search label never equals the navigation page's "Floor i", and rooms of floors 4 to 9 are labelled "Ground Floor" |
| `Search.PerformSearch` | app/search/page.tsx:28-70 | the nested loops produce exactly the filtered record list |
| `Search.SearchBlankQuery` | app/search/page.tsx:29-35 | an empty or whitespace-only query finds nothing; any other query is matched lower-cased but untrimmed |
| `Search.SearchResults` | app/search/page.tsx:28-70 | a blank query gives no results; every result is a record of some room that matches the lower-cased query; no more results than rooms |
| `Text.Lower` | app/search/page.tsx:35 | `toLowerCase` keeps the length, turns every capital A-Z into its small letter, leaves no capital letter and changes nothing else |
| `Text.Trim` | app/search/page.tsx:29 | `trim` gives the empty string exactly for all-whitespace input; otherwise the result neither starts nor ends with whitespace and occurs in the input |
| `Text.ContainsAt` | app/search/page.tsx:53-55 | `includes` holds exactly when the query occurs at some position |
| `Text.Contains` | app/search/page.tsx:53-55 | `includes` needs the query to be no longer than the text, and holds whenever the text starts with the query |
| `Search.SearchFindsRoom` | app/search/page.tsx:52-56 | a room's record is found exactly when the query is not blank and its lower-cased name, number or department contains the lower-cased query |
| `Search.SearchSound` | app/search/page.tsx:57-64 | every result copies building id and name and room number, name and department from a matching room, with the search page's floor label |
| `Search.SearchOrder` | app/search/page.tsx:37-38 | results are a subsequence of all records in building-then-room order, so at most one per room |
| `Search.SearchKeepsQuerySpaces` | app/search/page.tsx:35 | " lab" does not find a room named "Lab", while "lab" does |

## Left out

- The dataset module the pages import is not part of this model; the buildings are a parameter of every query, and only the room and building fields the pages read are modelled.
- JSX rendering, styling, links and the map placeholder are presentation; directions are modelled as one string per paragraph.
- React state plumbing (`useState`, `setResults`, the `useEffect` that searches on load) is not modelled; `Search.PerformSearch` returns the list that would be stored.
- `toLowerCase` is modelled on ASCII letters only; Unicode case mapping is not modelled.
- `parseInt` is modelled as an unbounded natural; the loss of precision of very long digit strings in JavaScript numbers is not modelled.
- The header component, the layout and the facilities page (with its room-category grouping) are outside the modelled core.
- Navigation.NavigationPage.ChooseFloor, ChooseRoom and Navigate require the upstream selection to be made, because the page renders their controls only then; the handlers themselves do not check it.

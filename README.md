# Navitia identifiers and place containers, in Dafny

This project models the two pieces of behaviour in the Go client library for the
Navitia.io journey-planning API that go beyond plain data definitions:

- **Identifiers** (`types/id.go`, module `Ids` in `id.dfy`). `ID.Check` rejects the empty
  identifier. `ID.Type` guesses an object's type from its identifier: it splits the
  identifier on `:` with `strings.Split`, and returns the first piece when that piece is
  one of the nine names in `typeNames`. Otherwise it returns `""`. `strings.Split` is
  modelled as `Split`, with `Join` (`strings.Join`) as its inverse. The model proves the
  two are inverse bijections between strings and non-empty lists of separator-free pieces.
  Those facts then yield a declarative reading of `Type`: it returns a known name exactly
  when the identifier is that name or starts with that name followed by `:`.
- **Place containers** (`types/place.go`, module `Places` in `place.dfy`). Navitia sends a
  place as a `PlaceCountainer`. This is a tagged union: the `embedded_type` tag names one
  of five pointer fields (stop area, POI, address, stop point, administrative region).
  `PlaceCountainer.Place` returns nothing for the Go zero value. For a known tag it returns
  the named field as-is, and for any other tag it returns an error. The datatype `Place`
  models the non-nil `Place` interface values that `PlaceCountainer.Place` returns: its
  constructor is the dynamic type, a pointer to one of the five variants, and it holds
  that pointer as an `Option`. A known tag whose field is nil therefore gives a non-nil
  place that boxes a nil pointer, as Go's typed nil does. The nil interface and the nil
  error are `Option.None` (module `Wrappers` in `wrappers.dfy`).

Go strings are byte strings and are modelled as `seq<char>`. The separator `:` is ASCII, so
in UTF-8 it never occurs inside a multi-byte character, and splitting on characters
agrees with splitting on bytes. Go's `==` on the container compares pointers by identity,
while the model compares `Option` values. The only comparison made is against the zero
value, whose pointers are all nil, so the two agree.

## Model

| member | source | states |
|---|---|---|
| `Ids.Check` | types/id.go:13-18 | an error is returned if and only if the identifier is empty |
| `Ids.CheckAcceptsNonEmpty` | types/id.go:13-18 | every non-empty identifier is accepted |
| `Ids.IsTypeName` | types/id.go:45 | the lookup `typeNames[possible]` in the constant map `TypeNames` (types/id.go:21-31), with `false` for a missing key |
| `Ids.IsTypeNameIffKnown` | types/id.go:21-31 | looking a name up in `typeNames` (missing keys read as `false`) succeeds exactly for the nine known type names |
| `Ids.KnownTypesHaveNoColon` | types/id.go:21-31 | no known type name is empty or contains `:` |
| `Ids.Split` | types/id.go:39 | `strings.Split` yields at least one piece, so the `len(splitted) == 0` branch of `Type` is unreachable; no piece contains the separator, and joining the pieces with the separator gives the input back |
| `Ids.SplitJoin` | types/id.go:39 | splitting the join of a non-empty list of separator-free pieces gives the list back |
| `Ids.SplitNoSeparator` | types/id.go:39-44 | a string without `:` splits into the single piece that is the whole string |
| `Ids.SplitAfterHead` | types/id.go:39-44 | splitting `head:rest`, where `head` has no `:`, gives `head` followed by the pieces of `rest` |
| `Ids.FirstPieceHeads` | types/id.go:39-44 | the first piece is the whole string or is followed in it by `:` |
| `Ids.FirstPieceUnique` | types/id.go:39-44 | a colon-free segment that is the whole string, or is followed by `:`, is the first piece |
| `Ids.Type` | types/id.go:38-50 | the result is `""` or one of the nine known names; a non-empty result is the first piece; the result is `""` exactly when the first piece is not a known name |
| `Ids.TypeCharacterised` | types/id.go:38-50 | `Type(id) == t` if and only if `t` is a known name and `id` is `t` or starts with `t:`, or `t` is `""` and no known name heads `id` |
| `Ids.TypeIgnoresRest` | types/id.go:39-46 | the result depends only on the text before the first `:`: `Type(head:rest) == Type(head)` for every `rest` |
| `Ids.TypeOfStopAreaId` | types/id.go:39-46 | `Type("stop_area:OIF:SA:1")` is `"stop_area"` |
| `Ids.TypeOfBareName` | types/id.go:39-49 | an identifier without `:` is one piece: `Type("line")` is `"line"`, `Type("foo")` and `Type("")` are `""` |
| `Ids.TypeIgnoresLaterName` | types/id.go:44-49 | a known name after the first `:` is ignored: `Type("x:line")` is `""` |
| `Places.EmptyCountainer` | types/place.go:46 | the Go zero value `PlaceCountainer{}`: empty id, name and tag, zero quality, all five pointers nil |
| `Places.StopArea.PlaceID` | types/place.go:90-92 | the `StopArea`'s own `ID` field |
| `Places.StopArea.PlaceName` | types/place.go:96-98 | the `StopArea`'s own `Name` field |
| `Places.StopArea.PlaceType` | types/place.go:102-104 | the constant `"stop_area"`, which is one of the five tags a container may carry |
| `Places.POI.PlaceID` | types/place.go:121-123 | the `POI`'s own `ID` field |
| `Places.POI.PlaceName` | types/place.go:127-129 | the `POI`'s own `Name` field |
| `Places.POI.PlaceType` | types/place.go:133-135 | the constant `"poi"`, which is one of the five tags a container may carry |
| `Places.Address.PlaceID` | types/place.go:166-168 | the `Address`'s own `ID` field |
| `Places.Address.PlaceName` | types/place.go:172-174 | the `Address`'s own `Name` field |
| `Places.Address.PlaceType` | types/place.go:178-180 | the constant `"address"`, which is one of the five tags a container may carry |
| `Places.StopPoint.PlaceID` | types/place.go:204-206 | the `StopPoint`'s own `ID` field |
| `Places.StopPoint.PlaceName` | types/place.go:210-212 | the `StopPoint`'s own `Name` field |
| `Places.StopPoint.PlaceType` | types/place.go:216-218 | the constant `"stop_point"`, which is one of the five tags a container may carry |
| `Places.AdministrativeRegion.PlaceID` | types/place.go:242-244 | the `AdministrativeRegion`'s own `ID` field |
| `Places.AdministrativeRegion.PlaceName` | types/place.go:248-250 | the `AdministrativeRegion`'s own `Name` field |
| `Places.AdministrativeRegion.PlaceType` | types/place.go:254-256 | the constant `"administrative_region"`, which is one of the five tags a container may carry |
| `Places.Place.PlaceID` | types/place.go:16 | `Place.PlaceID` dispatched to the dynamic type; defined only for a non-nil pointer |
| `Places.Place.PlaceName` | types/place.go:19 | `Place.PlaceName` dispatched to the dynamic type; defined only for a non-nil pointer |
| `Places.Place.PlaceType` | types/place.go:22 | `Place.PlaceType` dispatched to the dynamic type, defined only for a non-nil pointer; the tag is one of the five a container may carry |
| `Places.Place.TypeName` | types/place.go:100-256 | the tag of a place's dynamic type, as the five `PlaceType` methods return it, is one of the five embedded types |
| `Places.PlaceCountainer.Place` | types/place.go:44-66 | no place and no error exactly for the zero value; never both a place and an error; an error exactly for a non-zero container with an unknown tag, and the error names that tag; a returned place has the tag as its dynamic type and boxes the container's field of that type unchanged |
| `Places.EmptyCountainerHasNoPlace` | types/place.go:45-49 | the zero container gives `(nil, nil)` |
| `Places.MetadataOnlyIsError` | types/place.go:46-64 | a container with only an id, a name or a quality set and an empty tag is not empty and yields the unknown-tag error |
| `Places.TypeNameDeterminesKind` | types/place.go:100-256 | the five `PlaceType` tags are pairwise distinct, so equal tags mean the same dynamic type |
| `Places.ResolvedPlaceUnique` | types/place.go:52-62 | at most one place has a given tag and boxes the container's field of its type |
| `Places.PlaceIsResolution` | types/place.go:44-66 | `Place` returns `r` if and only if `r` is what the declarative description `ResolvesTo` allows (zero value, unknown tag, or the unique place of the tag) |
| `Places.KnownTagWithNilField` | types/place.go:53-54 | a non-empty container tagged `stop_area` with a nil stop area gives a typed-nil place and no error |
| `Places.ResolvedPlaceTypeMatchesTag` | types/place.go:52-62 | a returned non-nil place comes without an error, and its own `PlaceType` equals the container's tag |
| `Places.PlaceTypeIsTypeName` | types/place.go:100-256 | on a non-nil pointer, `PlaceType` reports the dynamic type's tag |
| `Places.AccessorsReadFields` | types/place.go:90-250 | `PlaceID` and `PlaceName` of every variant return that variant's `ID` and `Name` fields |
| `Places.CountainRoundTrip` | types/place.go:27-66 | resolving the container built from any place, including one that boxes a nil pointer, gives that place back without error |

`Places.Countain` builds the container that carries a given place. `Places.ResolvesTo`
describes `Place` without the switch. Both exist only to state the last properties.
`Place` is a Dafny function of the container's value, so it can neither change the
container nor depend on anything else. This matches Go's value receiver.

## Left out

- `Place` interface values whose dynamic type is a variant struct rather than a pointer to
  one are not told apart from the pointer case; `PlaceCountainer.Place` never returns them.
- The text of the error messages (types/id.go:15, types/place.go:64): errors are the
  abstract values `EmptyId` and `UnknownEmbeddedType(tag)`.
- A panic from calling `PlaceID`, `PlaceName` or `PlaceType` through a place that boxes a
  nil pointer is not modelled as behaviour. Those calls require a non-nil pointer instead.
- The JSON tags and serialisation shape of the structures, and JSON decoding in general.
- `Coordinates` and its decoding from strings (types/coordinates_json.go): float parsing
  and a foreign JSON library. `Coordinates` is not part of this model beyond a pair of
  reals held in the place records.
- `Equipment` is not part of this model; an equipment is represented by its name.
- Sections, stop times and their description table (types/section.go): data definitions
  with no behaviour.
- The request logging timestamps (logging.go): they only record the wall clock.
- Integer widths: `Quality` and `HouseNumber` (Go `uint`) are `nat`, and `Level` (Go
  `int`) is `int`. No operation does arithmetic on them.

/** Places and the tagged-union container Navitia sends them in (types/place.go). */
module Places {
  import opened Wrappers
  import opened Ids

  /** Coordinates are not part of this model; their two float64 fields are kept as reals. */
  datatype Coordinates = Coordinates(latitude: real, longitude: real)

  /** Equipment is not part of this model; an equipment is represented by its name. */
  type Equipment = string

  /** The type of a point of interest. */
  datatype POIType = POIType(id: ID, name: string)

  /** A stop area: a place where a public transportation method may stop. */
  datatype StopArea = StopArea(
    id: ID,
    name: string,
    displayLabel: string,
    coord: Coordinates,
    administrativeRegions: seq<AdministrativeRegion>,
    stopPoints: seq<StopPoint>)
  {
    /** Its `ID` field. */
    function PlaceID(): (placeId: ID) { id }

    /** Its `Name` field. */
    function PlaceName(): (placeName: string) { name }

    /** Its fixed type tag, one of the tags a container may carry. */
    function PlaceType(): (tag: string)
      ensures tag in EmbeddedTypes
    {
      "stop_area"
    }
  }

  /** A point of interest. */
  datatype POI = POI(id: ID, name: string, displayLabel: string, poiType: POIType)
  {
    /** Its `ID` field. */
    function PlaceID(): (placeId: ID) { id }

    /** Its `Name` field. */
    function PlaceName(): (placeName: string) { name }

    /** Its fixed type tag, one of the tags a container may carry. */
    function PlaceType(): (tag: string)
      ensures tag in EmbeddedTypes
    {
      "poi"
    }
  }

  /** A real-world address; the house number is a Go `uint`. */
  datatype Address = Address(
    id: ID,
    name: string,
    displayLabel: string,
    coord: Coordinates,
    houseNumber: nat,
    administrativeRegions: seq<AdministrativeRegion>)
  {
    /** Its `ID` field. */
    function PlaceID(): (placeId: ID) { id }

    /** Its `Name` field. */
    function PlaceName(): (placeName: string) { name }

    /** Its fixed type tag, one of the tags a container may carry. */
    function PlaceType(): (tag: string)
      ensures tag in EmbeddedTypes
    {
      "address"
    }
  }

  /** A stop point of a line; its stop area is a Go pointer, `None` when nil. */
  datatype StopPoint = StopPoint(
    id: ID,
    name: string,
    coord: Coordinates,
    administrativeRegions: seq<AdministrativeRegion>,
    equipments: seq<Equipment>,
    stopArea: Option<StopArea>)
  {
    /** Its `ID` field. */
    function PlaceID(): (placeId: ID) { id }

    /** Its `Name` field. */
    function PlaceName(): (placeName: string) { name }

    /** Its fixed type tag, one of the tags a container may carry. */
    function PlaceType(): (tag: string)
      ensures tag in EmbeddedTypes
    {
      "stop_point"
    }
  }

  /** A region under the responsibility of a specific organisation. */
  datatype AdministrativeRegion = AdministrativeRegion(
    id: ID,
    name: string,
    displayLabel: string,
    coord: Coordinates,
    level: int,
    zipCode: string)
  {
    /** Its `ID` field. */
    function PlaceID(): (placeId: ID) { id }

    /** Its `Name` field. */
    function PlaceName(): (placeName: string) { name }

    /** Its fixed type tag, one of the tags a container may carry. */
    function PlaceType(): (tag: string)
      ensures tag in EmbeddedTypes
    {
      "administrative_region"
    }
  }

  /** A non-nil Go `Place` interface value as `PlaceCountainer.Place` returns it: the
      dynamic type is a pointer to one of the five variants, and that pointer may itself
      be nil (`None`). The nil interface is `Option<Place>.None`. Interface values whose
      dynamic type is a variant struct rather than a pointer are not represented. */
  datatype Place =
    | StopAreaPlace(stopArea: Option<StopArea>)
    | POIPlace(poi: Option<POI>)
    | AddressPlace(address: Option<Address>)
    | StopPointPlace(stopPoint: Option<StopPoint>)
    | AdministrativeRegionPlace(administrativeRegion: Option<AdministrativeRegion>)
  {
    /** The boxed pointer is nil: calling a method of the interface would panic. */
    predicate IsNilPointer()
    {
      match this
      case StopAreaPlace(p) => p.None?
      case POIPlace(p) => p.None?
      case AddressPlace(p) => p.None?
      case StopPointPlace(p) => p.None?
      case AdministrativeRegionPlace(p) => p.None?
    }

    /** The tag of the dynamic type: what its `PlaceType` method returns. Unlike
        `PlaceType` it is defined for a nil pointer as well. */
    function TypeName(): (tag: string)
      ensures tag in EmbeddedTypes
    {
      match this
      case StopAreaPlace(_) => "stop_area"
      case POIPlace(_) => "poi"
      case AddressPlace(_) => "address"
      case StopPointPlace(_) => "stop_point"
      case AdministrativeRegionPlace(_) => "administrative_region"
    }

    /** The boxed pointer is the container's field of the same type. */
    predicate BoxesFieldOf(pc: PlaceCountainer)
    {
      match this
      case StopAreaPlace(p) => p == pc.stopArea
      case POIPlace(p) => p == pc.poi
      case AddressPlace(p) => p == pc.address
      case StopPointPlace(p) => p == pc.stopPoint
      case AdministrativeRegionPlace(p) => p == pc.administrativeRegion
    }

    /** `Place.PlaceID`, dispatched to the dynamic type. */
    function PlaceID(): (placeId: ID)
      requires !IsNilPointer()
    {
      match this
      case StopAreaPlace(p) => p.value.PlaceID()
      case POIPlace(p) => p.value.PlaceID()
      case AddressPlace(p) => p.value.PlaceID()
      case StopPointPlace(p) => p.value.PlaceID()
      case AdministrativeRegionPlace(p) => p.value.PlaceID()
    }

    /** `Place.PlaceName`, dispatched to the dynamic type. */
    function PlaceName(): (placeName: string)
      requires !IsNilPointer()
    {
      match this
      case StopAreaPlace(p) => p.value.PlaceName()
      case POIPlace(p) => p.value.PlaceName()
      case AddressPlace(p) => p.value.PlaceName()
      case StopPointPlace(p) => p.value.PlaceName()
      case AdministrativeRegionPlace(p) => p.value.PlaceName()
    }

    /** `Place.PlaceType`, dispatched to the dynamic type. */
    function PlaceType(): (tag: string)
      requires !IsNilPointer()
      ensures tag in EmbeddedTypes
    {
      match this
      case StopAreaPlace(p) => p.value.PlaceType()
      case POIPlace(p) => p.value.PlaceType()
      case AddressPlace(p) => p.value.PlaceType()
      case StopPointPlace(p) => p.value.PlaceType()
      case AdministrativeRegionPlace(p) => p.value.PlaceType()
    }
  }

  /** The five tags a container may carry in its `embedded_type`. */
  const EmbeddedTypes: set<string> :=
    {"stop_area", "poi", "address", "stop_point", "administrative_region"}

  /** The error `Place` reports; the text of the Go message is not modelled. */
  datatype PlaceError = UnknownEmbeddedType(embeddedType: string)

  /** The `(Place, error)` pair `Place` returns; `None` stands for Go's nil. */
  datatype PlaceReply = PlaceReply(place: Option<Place>, err: Option<PlaceError>)

  /** The Go zero value `PlaceCountainer{}`. */
  function EmptyCountainer(): (pc: PlaceCountainer)
  {
    PlaceCountainer("", "", 0, "", None, None, None, None, None)
  }

  /** `PlaceCountainer`: the tagged union a place arrives in; `quality` is a Go `uint`. */
  datatype PlaceCountainer = PlaceCountainer(
    id: ID,
    name: string,
    quality: nat,
    embeddedType: string,
    stopArea: Option<StopArea>,
    poi: Option<POI>,
    address: Option<Address>,
    stopPoint: Option<StopPoint>,
    administrativeRegion: Option<AdministrativeRegion>)
  {
    /** `PlaceCountainer.Place`: nothing for the zero container, the field named by the
        tag for a known tag, and an error otherwise. */
    function Place(): (r: PlaceReply)
      ensures r.place.None? && r.err.None? <==> this == EmptyCountainer()
      ensures !(r.place.Some? && r.err.Some?)
      ensures r.err.Some? <==> this != EmptyCountainer() && embeddedType !in EmbeddedTypes
      ensures r.err.Some? ==> r.err.value.embeddedType == embeddedType
      ensures r.place.Some? ==>
        r.place.value.TypeName() == embeddedType && r.place.value.BoxesFieldOf(this)
    {
      if this == EmptyCountainer() then PlaceReply(None, None)
      else
        match embeddedType
        case "stop_area" => PlaceReply(Some(StopAreaPlace(stopArea)), None)
        case "poi" => PlaceReply(Some(POIPlace(poi)), None)
        case "address" => PlaceReply(Some(AddressPlace(address)), None)
        case "stop_point" => PlaceReply(Some(StopPointPlace(stopPoint)), None)
        case "administrative_region" =>
          PlaceReply(Some(AdministrativeRegionPlace(administrativeRegion)), None)
        case _ => PlaceReply(None, Some(UnknownEmbeddedType(embeddedType)))
    }
  }

  // ---------------------------------------------------------------------------
  // Properties of Place

  /** The zero container holds no place and no error. */
  lemma EmptyCountainerHasNoPlace()
    ensures EmptyCountainer().Place() == PlaceReply(None, None)
  {
  }

  /** Emptiness is equality with the zero value over every field: a container carrying
      only an id, a name or a quality, and no tag, is not empty and yields an error. */
  lemma MetadataOnlyIsError(pc: PlaceCountainer)
    requires pc.embeddedType == []
    requires pc.id != [] || pc.name != [] || pc.quality != 0
    ensures pc.Place() == PlaceReply(None, Some(UnknownEmbeddedType([])))
  {
  }

  /** The tag names are pairwise distinct, so a tag determines the dynamic type. */
  lemma TypeNameDeterminesKind(p: Place, q: Place)
    requires p.TypeName() == q.TypeName()
    ensures p.StopAreaPlace? <==> q.StopAreaPlace?
    ensures p.POIPlace? <==> q.POIPlace?
    ensures p.AddressPlace? <==> q.AddressPlace?
    ensures p.StopPointPlace? <==> q.StopPointPlace?
    ensures p.AdministrativeRegionPlace? <==> q.AdministrativeRegionPlace?
  {
  }

  /** A place whose dynamic type has the container's tag and which boxes the container's
      field of that type is the only one that can be resolved. */
  lemma ResolvedPlaceUnique(pc: PlaceCountainer, p: Place, q: Place)
    requires p.TypeName() == q.TypeName()
    requires p.BoxesFieldOf(pc) && q.BoxesFieldOf(pc)
    ensures p == q
  {
    TypeNameDeterminesKind(p, q);
  }

  /** What a container resolves to, stated without the switch: nothing for the zero
      value; an error naming an unknown tag; otherwise the one place whose dynamic type
      is the tag and which boxes the field of that type. */
  predicate ResolvesTo(pc: PlaceCountainer, r: PlaceReply)
  {
    if pc == EmptyCountainer() then r == PlaceReply(None, None)
    else if pc.embeddedType !in EmbeddedTypes then
      r == PlaceReply(None, Some(UnknownEmbeddedType(pc.embeddedType)))
    else
      r.err.None? && r.place.Some? &&
      r.place.value.TypeName() == pc.embeddedType && r.place.value.BoxesFieldOf(pc)
  }

  /** `Place` returns exactly the reply the declarative description allows. */
  lemma PlaceIsResolution(pc: PlaceCountainer, r: PlaceReply)
    ensures pc.Place() == r <==> ResolvesTo(pc, r)
  {
  }

  /** A known tag whose field is nil still yields a place and no error: the Go interface
      holds a typed nil pointer, so the returned place is not nil though it boxes nil. */
  lemma KnownTagWithNilField(pc: PlaceCountainer)
    requires pc != EmptyCountainer()
    requires pc.embeddedType == "stop_area" && pc.stopArea == None
    ensures pc.Place() == PlaceReply(Some(StopAreaPlace(None)), None)
    ensures pc.Place().place.value.IsNilPointer()
  {
  }

  /** When a place is resolved without error and its pointer is not nil, its own
      `PlaceType` equals the container's tag. */
  lemma ResolvedPlaceTypeMatchesTag(pc: PlaceCountainer)
    requires pc.Place().place.Some?
    requires !pc.Place().place.value.IsNilPointer()
    ensures pc.Place().err.None?
    ensures pc.Place().place.value.PlaceType() == pc.embeddedType
  {
  }

  /** On a non-nil pointer, `PlaceType` reports the dynamic type's tag. */
  lemma PlaceTypeIsTypeName(p: Place)
    requires !p.IsNilPointer()
    ensures p.PlaceType() == p.TypeName()
  {
  }

  /** `PlaceID` and `PlaceName` return the boxed value's own `ID` and `Name` fields. */
  lemma AccessorsReadFields(p: Place)
    requires !p.IsNilPointer()
    ensures p.StopAreaPlace? ==>
      p.PlaceID() == p.stopArea.value.id && p.PlaceName() == p.stopArea.value.name
    ensures p.POIPlace? ==>
      p.PlaceID() == p.poi.value.id && p.PlaceName() == p.poi.value.name
    ensures p.AddressPlace? ==>
      p.PlaceID() == p.address.value.id && p.PlaceName() == p.address.value.name
    ensures p.StopPointPlace? ==>
      p.PlaceID() == p.stopPoint.value.id && p.PlaceName() == p.stopPoint.value.name
    ensures p.AdministrativeRegionPlace? ==>
      p.PlaceID() == p.administrativeRegion.value.id &&
      p.PlaceName() == p.administrativeRegion.value.name
  {
  }

  /** A container that carries the given place: its id and name (empty for a nil
      pointer), a zero quality, its tag, and the place in the field of its type. */
  function Countain(p: Place): (pc: PlaceCountainer)
  {
    var id := if p.IsNilPointer() then "" else p.PlaceID();
    var name := if p.IsNilPointer() then "" else p.PlaceName();
    var pc := PlaceCountainer(id, name, 0, p.TypeName(), None, None, None, None, None);
    match p
    case StopAreaPlace(x) => pc.(stopArea := x)
    case POIPlace(x) => pc.(poi := x)
    case AddressPlace(x) => pc.(address := x)
    case StopPointPlace(x) => pc.(stopPoint := x)
    case AdministrativeRegionPlace(x) => pc.(administrativeRegion := x)
  }

  /** Resolving the container of a place gives that place back, without error. */
  lemma CountainRoundTrip(p: Place)
    ensures Countain(p).Place() == PlaceReply(Some(p), None)
  {
  }
}

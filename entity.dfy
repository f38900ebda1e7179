/**
 * The library's domain entities. Coordinates are kept as integer nanodegrees:
 * the floating-point conversions of the source are outside the model.
 */
module Entity {
  import opened JavaInt
  import opened Wrappers
  import RelationMember

  /** Per-entity metadata. */
  datatype Info = Info(uid: Int32, username: string, version: Int32, timestamp: Int64,
                       changeset: Int64, visible: bool)

  type Tags = map<string, string>

  datatype Node = Node(id: Int64, lat: int, lon: int, tags: Tags, info: Option<Info>)

  datatype Way = Way(id: Int64, tags: Tags, info: Option<Info>, nodes: seq<Int64>)

  datatype Relation = Relation(id: Int64, tags: Tags, info: Option<Info>,
                               members: seq<RelationMember.Member>)

  /** What the writer queue carries: the three primitives, or some other OsmEntity subclass. */
  datatype OsmEntity =
    | NodeEntity(node: Node)
    | WayEntity(way: Way)
    | RelationEntity(relation: Relation)
    | OtherEntity(id: Int64)

  datatype Header = Header(requiredFeatures: seq<string>, optionalFeatures: seq<string>,
                           writingProgram: Option<string>, source: Option<string>)

  /** A bounding box, in nanodegrees. */
  datatype BoundBox = BoundBox(left: int, top: int, right: int, bottom: int)

  const FEATURE_OSM_SCHEMA: string := "OsmSchema-V0.6"
  const FEATURE_DENSE_NODES: string := "DenseNodes"
  const FEATURE_HISTORICAL_INFORMATION: string := "HistoricalInformation"
}

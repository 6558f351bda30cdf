/**
 What a branch creator sees of the world around it: the property kinds of a
 scene, the plugs it is wired to, content digests, the upstream scene and the
 branch generator a concrete subclass supplies. Everything here is read-only
 to the branch creator; geometry and objects are opaque.
 */
module SceneTypes {

  /** A bounding box (`Imath::Box3f`), opaque. */
  type Box3f(==)
  /** A local transform (`Imath::M44f`), opaque. */
  type M44f(==)
  /** An attribute block (`IECore::CompoundObject`), opaque. */
  type CompoundObject(==)
  /** The object stored at a location, opaque. */
  type SceneObject(==)
  /** The scene globals (`IECore::ObjectVector`), opaque. */
  type ObjectVector(==)

  /** The children of a scene plug: five per-location properties and the scene-wide globals. */
  datatype PropertyKind = Bound | Transform | Attributes | Object | ChildNames | Globals

  /** The plugs a branch creator is asked about. */
  datatype Plug =
    | InChild(kind: PropertyKind)   // a child of the input scene plug
    | OutChild(kind: PropertyKind)  // a child of the output scene plug
    | InScene                       // the input scene plug as a whole
    | OutScene                      // the output scene plug as a whole
    | ParentPlug                    // the `parent` string setting
    | NamePlug                      // the `name` string setting
    | OtherPlug(id: nat)            // any other plug of the node

  /**
   A content digest as a term: what went into the accumulator, in order.
   Two digests are equal exactly when the same contributions were appended
   in the same order, so combining is injective and order-sensitive.
   */
  datatype Digest = Seed | Append(prefix: Digest, part: HashPart)

  /** One contribution appended to an accumulator. */
  datatype HashPart =
    | OutputIdentity(output: Plug)  // what the base class mixes in for an output plug
    | StringValue(value: string)    // the hash of a string setting's value
    | Nested(digest: Digest)        // a digest computed by a collaborator

  /** The two settings, read once per evaluation. */
  datatype Config = Config(parent: string, name: string)

  /** The input scene: per-location values and their digests, and the globals. */
  datatype UpstreamScene = UpstreamScene(
    bound: string -> Box3f,
    transform: string -> M44f,
    attributes: string -> CompoundObject,
    sceneObject: string -> SceneObject,
    childNames: string -> seq<string>,
    hash: (PropertyKind, string) -> Digest,  // digest of a per-location property at a location
    globals: ObjectVector,
    globalsHash: Digest)

  /**
   The union of a location's children's bounds, each transformed by that
   child's transform, taken from the output scene, and its digest.
   */
  datatype ChildBounds = ChildBounds(union: string -> Box3f, hash: string -> Digest)

  /**
   The content of the branch, supplied by a concrete subclass. Each value is
   a function of the parent path and the branch path; `hash` is what the
   subclass appends to the accumulator for a property.
   */
  datatype BranchGenerator = BranchGenerator(
    bound: (string, string) -> Box3f,
    transform: (string, string) -> M44f,
    attributes: (string, string) -> CompoundObject,
    sceneObject: (string, string) -> SceneObject,
    childNames: (string, string) -> seq<string>,
    hash: (PropertyKind, string, string) -> Digest)
}

/**
 The branch creator: a scene processor that grafts a generated subtree onto
 its input scene under a new child `name` of the location `parent`. Every
 per-location property of the output is routed, by the classification of
 the queried location, to the branch generator, to the child-bounds union,
 to the one-element list `[name]` (the child names of the exact parent), or
 straight through from the input; its digest follows the same route.
 */
module BranchCreator {
  import opened Paths
  import opened Classifier
  import opened SceneTypes

  /**
   Which value a property takes at a location: the branch generator's (with
   the parent path and branch path it is asked for), the union of the
   children's bounds, the one-element child list of the exact parent, or the
   input scene's.
   */
  datatype Regime =
    | BranchInterior(parentPath: string, branchPath: string)
    | ChildBoundsUnion
    | ExactParent
    | PassThrough

  /**
   The routing table shared by values and digests. It is stated from the
   tokens of the location and of `parent`, not from the classification's
   strings. Two quirks of the implementation are part of it: an empty
   `parent` string gives no bound union (the root then passes through), and
   the exact parent is recognised by string equality with `parent`.
   */
  function RegimeOf(kind: PropertyKind, path: string, cfg: Config): Regime {
    if kind == Globals then PassThrough
    else if OnBranch(path, cfg.parent, cfg.name) then
      BranchInterior(cfg.parent, BranchSuffix(path, cfg.parent, cfg.name))
    else if kind == Bound && AncestorOrSelf(path, cfg.parent) && cfg.parent != "" then ChildBoundsUnion
    else if kind == ChildNames && path == cfg.parent then ExactParent
    else PassThrough
  }

  /** The bound at `path`. */
  function ComputeBound(path: string, cfg: Config, up: UpstreamScene, agg: ChildBounds, gen: BranchGenerator): (b: Box3f)
    ensures match RegimeOf(Bound, path, cfg)
      case BranchInterior(pp, bp) => b == gen.bound(pp, bp)
      case ChildBoundsUnion => b == agg.union(path)
      case _ => b == up.bound(path)
  {
    var c := Classify(path, cfg.parent, cfg.name);
    if |c.branchPath| > 0 then gen.bound(c.parentPath, c.branchPath)
    else if |c.parentPath| > 0 then agg.union(path)
    else up.bound(path)
  }

  /** The transform at `path`: the generator's on the branch, the input's everywhere else. */
  function ComputeTransform(path: string, cfg: Config, up: UpstreamScene, gen: BranchGenerator): (m: M44f)
    ensures match RegimeOf(Transform, path, cfg)
      case BranchInterior(pp, bp) => m == gen.transform(pp, bp)
      case _ => m == up.transform(path)
  {
    var c := Classify(path, cfg.parent, cfg.name);
    if |c.branchPath| > 0 then gen.transform(c.parentPath, c.branchPath)
    else up.transform(path)
  }

  /** The attributes at `path`: the generator's on the branch, the input's everywhere else. */
  function ComputeAttributes(path: string, cfg: Config, up: UpstreamScene, gen: BranchGenerator): (a: CompoundObject)
    ensures match RegimeOf(Attributes, path, cfg)
      case BranchInterior(pp, bp) => a == gen.attributes(pp, bp)
      case _ => a == up.attributes(path)
  {
    var c := Classify(path, cfg.parent, cfg.name);
    if |c.branchPath| > 0 then gen.attributes(c.parentPath, c.branchPath)
    else up.attributes(path)
  }

  /** The object at `path`: the generator's on the branch, the input's everywhere else. */
  function ComputeObject(path: string, cfg: Config, up: UpstreamScene, gen: BranchGenerator): (o: SceneObject)
    ensures match RegimeOf(Object, path, cfg)
      case BranchInterior(pp, bp) => o == gen.sceneObject(pp, bp)
      case _ => o == up.sceneObject(path)
  {
    var c := Classify(path, cfg.parent, cfg.name);
    if |c.branchPath| > 0 then gen.sceneObject(c.parentPath, c.branchPath)
    else up.sceneObject(path)
  }

  /**
   The child names at `path`. At the exact parent the input's children are
   replaced by the single new child, not added to.
   */
  function ComputeChildNames(path: string, cfg: Config, up: UpstreamScene, gen: BranchGenerator): (names: seq<string>)
    ensures match RegimeOf(ChildNames, path, cfg)
      case BranchInterior(pp, bp) => names == gen.childNames(pp, bp)
      case ExactParent => names == [cfg.name]
      case _ => names == up.childNames(path)
  {
    var c := Classify(path, cfg.parent, cfg.name);
    if |c.branchPath| > 0 then gen.childNames(c.parentPath, c.branchPath)
    else if path == c.parentPath then [cfg.name]
    else up.childNames(path)
  }

  /** A computed value of any property kind. */
  datatype Value =
    | BoundValue(bound: Box3f)
    | TransformValue(transform: M44f)
    | AttributesValue(attributes: CompoundObject)
    | ObjectValue(sceneObject: SceneObject)
    | ChildNamesValue(names: seq<string>)
    | GlobalsValue(globals: ObjectVector)

  /** The value of the output property `kind` at `path`. */
  function Compute(kind: PropertyKind, path: string, cfg: Config, up: UpstreamScene, agg: ChildBounds, gen: BranchGenerator): Value {
    match kind
    case Bound => BoundValue(ComputeBound(path, cfg, up, agg, gen))
    case Transform => TransformValue(ComputeTransform(path, cfg, up, gen))
    case Attributes => AttributesValue(ComputeAttributes(path, cfg, up, gen))
    case Object => ObjectValue(ComputeObject(path, cfg, up, gen))
    case ChildNames => ChildNamesValue(ComputeChildNames(path, cfg, up, gen))
    case Globals => GlobalsValue(up.globals)  // the globals are always the input's
  }

  /** The input scene's value of `kind` at `path`. */
  function UpstreamValue(up: UpstreamScene, kind: PropertyKind, path: string): Value {
    match kind
    case Bound => BoundValue(up.bound(path))
    case Transform => TransformValue(up.transform(path))
    case Attributes => AttributesValue(up.attributes(path))
    case Object => ObjectValue(up.sceneObject(path))
    case ChildNames => ChildNamesValue(up.childNames(path))
    case Globals => GlobalsValue(up.globals)
  }

  /** The input scene's digest of `kind` at `path`. */
  function UpstreamHash(up: UpstreamScene, kind: PropertyKind, path: string): Digest {
    if kind == Globals then up.globalsHash else up.hash(kind, path)
  }

  /** The generator's value of a per-location property on the branch. */
  function BranchValue(gen: BranchGenerator, kind: PropertyKind, parentPath: string, branchPath: string): Value
    requires kind != Globals
  {
    match kind
    case Bound => BoundValue(gen.bound(parentPath, branchPath))
    case Transform => TransformValue(gen.transform(parentPath, branchPath))
    case Attributes => AttributesValue(gen.attributes(parentPath, branchPath))
    case Object => ObjectValue(gen.sceneObject(parentPath, branchPath))
    case ChildNames => ChildNamesValue(gen.childNames(parentPath, branchPath))
  }

  /** What the base class appends for an output plug before a subclass adds its own contribution. */
  function BaseHash(output: Plug, h: Digest): Digest {
    Append(h, OutputIdentity(output))
  }

  /**
   The digest of `output` at `path`, by the routing table: the base hash
   followed by the generator's contribution on the branch, the child-bounds
   digest where bounds are unioned, the base hash followed by the `name`
   value at the exact parent, the input's digest verbatim otherwise. Plugs
   that are not children of the output scene get the base hash.
   */
  function DigestOf(output: Plug, path: string, cfg: Config, up: UpstreamScene, agg: ChildBounds, gen: BranchGenerator, h: Digest): Digest {
    match output
    case OutChild(kind) => (
      match RegimeOf(kind, path, cfg)
      case BranchInterior(pp, bp) => Append(BaseHash(output, h), Nested(gen.hash(kind, pp, bp)))
      case ChildBoundsUnion => agg.hash(path)
      case ExactParent => Append(BaseHash(output, h), StringValue(cfg.name))
      case PassThrough => UpstreamHash(up, kind, path))
    case _ => BaseHash(output, h)
  }

  /**
   Hashing an output plug into the accumulator `h`, in the order the
   implementation tests the plugs; the result is the new accumulator.
   */
  method Hash(output: Plug, path: string, cfg: Config, up: UpstreamScene, agg: ChildBounds, gen: BranchGenerator, h: Digest)
    returns (r: Digest)
    ensures r == DigestOf(output, path, cfg, up, agg, gen, h)
  {
    r := h;
    if output.OutChild? {
      if output == OutChild(Globals) {
        r := up.globalsHash;
      } else {
        var parentPath, branchPath := ParentAndBranchPaths(path, cfg.parent, cfg.name);
        if output == OutChild(Bound) {
          if |branchPath| > 0 {
            r := BaseHash(output, r);
            r := Append(r, Nested(gen.hash(Bound, parentPath, branchPath)));
          } else if |parentPath| > 0 {
            r := agg.hash(path);
          } else {
            r := up.hash(Bound, path);
          }
        } else if output == OutChild(Transform) {
          if |branchPath| > 0 {
            r := BaseHash(output, r);
            r := Append(r, Nested(gen.hash(Transform, parentPath, branchPath)));
          } else {
            r := up.hash(Transform, path);
          }
        } else if output == OutChild(Attributes) {
          if |branchPath| > 0 {
            r := BaseHash(output, r);
            r := Append(r, Nested(gen.hash(Attributes, parentPath, branchPath)));
          } else {
            r := up.hash(Attributes, path);
          }
        } else if output == OutChild(Object) {
          if |branchPath| > 0 {
            r := BaseHash(output, r);
            r := Append(r, Nested(gen.hash(Object, parentPath, branchPath)));
          } else {
            r := up.hash(Object, path);
          }
        } else if output == OutChild(ChildNames) {
          if |branchPath| > 0 {
            r := BaseHash(output, r);
            r := Append(r, Nested(gen.hash(ChildNames, parentPath, branchPath)));
          } else if path == parentPath {
            r := BaseHash(output, r);
            r := Append(r, StringValue(cfg.name));
          } else {
            r := up.hash(ChildNames, path);
          }
        }
      }
    } else {
      r := BaseHash(output, r);
    }
  }

  /**
   Values and digests take the same route for every property kind: on the
   branch both come from the generator, at an ancestor the bound and its
   digest are the child-bounds union's, at the exact parent the child list
   is `[name]` and its digest the base hash followed by `name`, and
   everywhere else both are the input's, the digest verbatim.
   */
  lemma RegimeAgreement(kind: PropertyKind, path: string, cfg: Config, up: UpstreamScene, agg: ChildBounds, gen: BranchGenerator, h: Digest)
    ensures var v, d := Compute(kind, path, cfg, up, agg, gen), DigestOf(OutChild(kind), path, cfg, up, agg, gen, h);
      match RegimeOf(kind, path, cfg)
      case BranchInterior(pp, bp) =>
        kind != Globals && v == BranchValue(gen, kind, pp, bp)
        && d == Append(Append(h, OutputIdentity(OutChild(kind))), Nested(gen.hash(kind, pp, bp)))
      case ChildBoundsUnion =>
        kind == Bound && v == BoundValue(agg.union(path)) && d == agg.hash(path)
      case ExactParent =>
        kind == ChildNames && v == ChildNamesValue([cfg.name])
        && d == Append(Append(h, OutputIdentity(OutChild(ChildNames))), StringValue(cfg.name))
      case PassThrough =>
        v == UpstreamValue(up, kind, path) && d == UpstreamHash(up, kind, path)
  {
  }

  /**
   Transform, attributes and object keep the input's value and digest at
   every location off the branch, including the ancestors of the parent and
   the parent itself.
   */
  lemma OffBranchKeepsUpstream(kind: PropertyKind, path: string, cfg: Config, up: UpstreamScene, agg: ChildBounds, gen: BranchGenerator, h: Digest)
    requires kind == Transform || kind == Attributes || kind == Object
    requires !OnBranch(path, cfg.parent, cfg.name)
    ensures Compute(kind, path, cfg, up, agg, gen) == UpstreamValue(up, kind, path)
    ensures DigestOf(OutChild(kind), path, cfg, up, agg, gen, h) == up.hash(kind, path)
  {
  }

  /** At the parent and its ancestors (for a non-empty `parent`) the bound and its digest are the child-bounds union's. */
  lemma AncestorBound(path: string, cfg: Config, up: UpstreamScene, agg: ChildBounds, gen: BranchGenerator, h: Digest)
    requires AncestorOrSelf(path, cfg.parent) && cfg.parent != ""
    ensures ComputeBound(path, cfg, up, agg, gen) == agg.union(path)
    ensures DigestOf(OutChild(Bound), path, cfg, up, agg, gen, h) == agg.hash(path)
  {
  }

  /**
   At the location whose string is the configured parent, the child names
   are exactly `[name]` and their digest the base hash followed by `name`;
   off the branch anywhere else both are the input's.
   */
  lemma ExactParentChildNames(path: string, cfg: Config, up: UpstreamScene, agg: ChildBounds, gen: BranchGenerator, h: Digest)
    ensures path == cfg.parent ==>
      ComputeChildNames(path, cfg, up, gen) == [cfg.name]
      && DigestOf(OutChild(ChildNames), path, cfg, up, agg, gen, h)
         == Append(Append(h, OutputIdentity(OutChild(ChildNames))), StringValue(cfg.name))
    ensures path != cfg.parent && !OnBranch(path, cfg.parent, cfg.name) ==>
      ComputeChildNames(path, cfg, up, gen) == up.childNames(path)
      && DigestOf(OutChild(ChildNames), path, cfg, up, agg, gen, h) == up.hash(ChildNames, path)
  {
    if path == cfg.parent {
      assert Tokens(path) <= Tokens(cfg.parent);
    }
  }

  /**
   A `parent` written with a trailing `/` names the same location by its
   tokens, yet is not string-equal to it: that location gets the child-bounds
   union as its bound, but keeps the input's child names and their digest
   instead of `[name]`.
   */
  lemma TrailingSlashParent(location: string, name: string, up: UpstreamScene, agg: ChildBounds, gen: BranchGenerator, h: Digest)
    ensures var cfg := Config(location + "/", name);
      Classify(location, cfg.parent, name) == Classification(cfg.parent, "")
      && ComputeBound(location, cfg, up, agg, gen) == agg.union(location)
      && DigestOf(OutChild(Bound), location, cfg, up, agg, gen, h) == agg.hash(location)
      && ComputeChildNames(location, cfg, up, gen) == up.childNames(location)
      && DigestOf(OutChild(ChildNames), location, cfg, up, agg, gen, h) == up.hash(ChildNames, location)
  {
    TokensAroundSlash(location, "");
    assert location + "/" + "" == location + "/";
    assert location != location + "/" by {
      assert |location| != |location + "/"|;
    }
  }

  /** The globals and their digest are the input's, whatever the location and the settings. */
  lemma GlobalsPassThrough(path: string, cfg: Config, up: UpstreamScene, agg: ChildBounds, gen: BranchGenerator, h: Digest)
    ensures Compute(Globals, path, cfg, up, agg, gen) == GlobalsValue(up.globals)
    ensures DigestOf(OutChild(Globals), path, cfg, up, agg, gen, h) == up.globalsHash
  {
  }

  /**
   The input scene's digests are faithful at `path` for `kind`: equal
   digests in two input states mean equal values.
   */
  predicate UpstreamFaithful(up1: UpstreamScene, up2: UpstreamScene, kind: PropertyKind, path: string) {
    UpstreamHash(up1, kind, path) == UpstreamHash(up2, kind, path) ==> UpstreamValue(up1, kind, path) == UpstreamValue(up2, kind, path)
  }

  /** The child-bounds digests are faithful at `path`. */
  predicate ChildBoundsFaithful(agg1: ChildBounds, agg2: ChildBounds, path: string) {
    agg1.hash(path) == agg2.hash(path) ==> agg1.union(path) == agg2.union(path)
  }

  /** The generator's contributions are faithful for `kind` at the branch location `(parentPath, branchPath)`. */
  predicate GeneratorFaithful(gen1: BranchGenerator, gen2: BranchGenerator, kind: PropertyKind, parentPath: string, branchPath: string) {
    kind != Globals ==>
      (gen1.hash(kind, parentPath, branchPath) == gen2.hash(kind, parentPath, branchPath)
       ==> BranchValue(gen1, kind, parentPath, branchPath) == BranchValue(gen2, kind, parentPath, branchPath))
  }

  /**
   The digest is a sound cache key: for a fixed location, settings and
   incoming accumulator, two states of the collaborators whose digests are
   faithful and that give the same digest give the same value.
   */
  lemma HashComputeConsistency(
    kind: PropertyKind, path: string, cfg: Config,
    up1: UpstreamScene, up2: UpstreamScene, agg1: ChildBounds, agg2: ChildBounds,
    gen1: BranchGenerator, gen2: BranchGenerator, h: Digest)
    requires UpstreamFaithful(up1, up2, kind, path)
    requires ChildBoundsFaithful(agg1, agg2, path)
    requires var c := Classify(path, cfg.parent, cfg.name); GeneratorFaithful(gen1, gen2, kind, c.parentPath, c.branchPath)
    ensures DigestOf(OutChild(kind), path, cfg, up1, agg1, gen1, h) == DigestOf(OutChild(kind), path, cfg, up2, agg2, gen2, h)
      ==> Compute(kind, path, cfg, up1, agg1, gen1) == Compute(kind, path, cfg, up2, agg2, gen2)
  {
    RegimeAgreement(kind, path, cfg, up1, agg1, gen1, h);
    RegimeAgreement(kind, path, cfg, up2, agg2, gen2, h);
  }

  /**
   The dependency rule a branch creator adds to its base class's: a change
   to a child of the input scene dirties the output child of the same name,
   and a change to `parent` or `name` dirties the whole output scene.
   */
  function DirectlyAffected(input: Plug): (r: seq<Plug>)
    ensures |r| <= 1
    ensures forall p :: p in r ==> p.OutChild? || p == OutScene
    ensures forall k :: Dirties(r, OutChild(k)) <==> input == InChild(k) || input == ParentPlug || input == NamePlug
  {
    match input
    case InChild(k) => assert Covers([OutChild(k)][0], OutChild(k)); [OutChild(k)]
    case ParentPlug => assert forall k :: Covers([OutScene][0], OutChild(k)); [OutScene]
    case NamePlug => assert forall k :: Covers([OutScene][0], OutChild(k)); [OutScene]
    case _ => []
  }

  /** Dirtying `p` dirties `q`: the same plug, or the whole output scene and one of its children. */
  predicate Covers(p: Plug, q: Plug) {
    p == q || (p == OutScene && q.OutChild?)
  }

  /** Some plug of `ps` dirties `q`. */
  predicate Dirties(ps: seq<Plug>, q: Plug) {
    exists p :: p in ps && Covers(p, q)
  }

  /**
   Declaring what `input` affects: the base class's plugs `inherited` are
   pushed first, then the branch creator's own, onto `outputs`.
   */
  method Affects(input: Plug, inherited: seq<Plug>, outputs: seq<Plug>) returns (affected: seq<Plug>)
    ensures affected == outputs + inherited + DirectlyAffected(input)
  {
    affected := outputs + inherited;
    if input.InChild? {
      affected := affected + [OutChild(input.kind)];
    } else if input == ParentPlug || input == NamePlug {
      affected := affected + [OutScene];
    }
  }
}

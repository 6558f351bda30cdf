# BranchCreator, modelled in Dafny

Gaffer's `BranchCreator` is a scene processor that grafts a generated subtree
(the *branch*) onto its input scene. Two string settings configure it:
`parent`, the location under which the branch goes, and `name`, the name of the
new child created there. The node never builds a merged scene. For each
queried location it classifies the location against `parent` and `name`, then
routes each property of the output scene (bound, transform, attributes,
object, child names, globals) to one of four sources: the subclass's branch
generator; the union of the children's bounds; at the exact parent, the
one-element child list `[name]` taken from the `name` setting; or the input
scene. The digest used as the cache key follows the same route; at the exact
parent it is the base hash followed by the hash of `name`.

The model has five modules:

- `Paths` (`paths.dfy`): locations as text. `Tokens` splits on `/` and drops
  empty pieces, as the `boost::char_separator("/")` tokenizer does. `Join` puts
  the pieces back together. The lemma `TokensOfJoin` proves that a branch path
  splits back into the tokens it was built from.
- `Classifier` (`classifier.dfy`): `Classify` is the reference definition of
  `parentAndBranchPaths`, stated through token prefixes. `ParentAndBranchPaths`
  is the implementation's lock-step walk over the two token sequences, with
  the `while` loop that builds the branch path. It is proved equal to `Classify`.
  Lemmas state each outcome.
- `SceneTypes` (`scene.dfy`): property kinds and plugs. Digests are terms
  (`Seed`, `Append`), so combining is injective and order-sensitive. The input
  scene, the child-bounds union and the branch generator are records of
  functions that the model does not interpret. Geometry and objects are
  opaque types.
- `BranchCreator` (`branch_creator.dfy`):
  - `RegimeOf` is the routing table. It is stated from token predicates.
  - One `Compute*` function per property follows the implementation's
    branches.
  - `Hash` is a method that updates the accumulator the way the
    implementation does. It is proved equal to `DigestOf`, the table-driven
    digest.
  - Lemmas prove that values and digests take the same route, and that equal
    digests give equal values.
  - `Affects` and `DirectlyAffected` model the dependency rule.
- `Examples` (`examples.dfy`): worked classifications and the quirks below.

Behaviour kept from the code:

- At the exact parent, the child names are replaced by `[name]`, not appended
  to (src/GafferScene/BranchCreator.cpp:265-267, and the todo at 260).
- The exact parent is recognised by string equality `path == parentPath`. With
  `parent = "/a/b/"`, the location `/a/b` gets the child-bounds union as its
  bound, but its child names pass through. `BranchCreator.TrailingSlashParent`
  states this for every `parent`, using `Paths.TokensAroundSlash`: a
  separator between two texts just concatenates their tokens.
- An empty `parent` string sets `parentPath` to `""`. The root's bound then
  passes through instead of being a union (`Examples.EmptyParentRoot`).
- With an empty `parent`, a location `/n/x` below the new child `n` is still
  on the branch, classified as (`""`, `/x`). But the root's child names are
  the input's, because `"/"` is not string-equal to `""` (line 258), so the
  root does not list the new child (`Examples.EmptyParentBranch`). The branch
  is reached only through a child of the input root that already has the
  name `name`, and then the branch replaces that child's contents
  (`Examples.EmptyParentExistingChild`).
- The out-parameters of `parentAndBranchPaths` are never cleared on the early
  returns. Every caller passes fresh strings, so the model starts them empty.

## Model

| member | source | states |
|---|---|---|
| `Paths.Tokens` | src/GafferScene/BranchCreator.cpp:285-288 | every token is non-empty and has no `/`; there are never more tokens than characters |
| `Paths.TokensAroundSlash` | src/GafferScene/BranchCreator.cpp:285-288 | for all texts `s`, `t`: the tokens of `s + "/" + t` are the tokens of `s` followed by those of `t`, so extra leading, trailing or repeated separators add no tokens |
| `Paths.TokensOfJoin` | src/GafferScene/BranchCreator.cpp:317-327 | `/` followed by tokens joined with `/` splits back into exactly those tokens |
| `Classifier.ParentAndBranchPaths` | src/GafferScene/BranchCreator.cpp:280-328 | the lock-step walk and the branch-path loop give exactly the classification `Classify` defines from token prefixes |
| `Classifier.DivergenceIsUnrelated` | src/GafferScene/BranchCreator.cpp:292-302 | the location and `parent` differ in a token at a shared position ⇒ both outputs are empty |
| `Classifier.SiblingIsUnrelated` | src/GafferScene/BranchCreator.cpp:311-315 | `parent`'s tokens run out first and the next location token is not `name` ⇒ both outputs are empty |
| `Classifier.AncestorOrSelfKeepsParent` | src/GafferScene/BranchCreator.cpp:304-309 | the location's tokens are a prefix of `parent`'s ⇒ `parentPath` is the whole configured `parent` string and `branchPath` is empty |
| `Classifier.OnBranchPaths` | src/GafferScene/BranchCreator.cpp:317-327 | the location's tokens are `parent`'s, then `name`, then `rest` ⇒ `parentPath == parent`; `branchPath == "/" + join(rest)`; it starts with `/`; it is `"/"` iff `rest` is empty; it splits back to `rest` |
| `Classifier.ClassificationStates` | src/GafferScene/BranchCreator.cpp:304-327 | a non-empty branch path comes with `parentPath == parent`; a non-empty `parentPath` equals `parent`; the branch path is empty iff the location is not on the branch |
| `BranchCreator.ComputeBound` | src/GafferScene/BranchCreator.cpp:190-206 | on the branch, the generator's bound at (parent, branch path); at `parent` or an ancestor with `parent` non-empty, the child-bounds union; otherwise, the input bound |
| `BranchCreator.ComputeTransform` | src/GafferScene/BranchCreator.cpp:208-220 | on the branch, the generator's transform; everywhere else the input's |
| `BranchCreator.ComputeAttributes` | src/GafferScene/BranchCreator.cpp:222-234 | on the branch, the generator's attributes; everywhere else the input's |
| `BranchCreator.ComputeObject` | src/GafferScene/BranchCreator.cpp:236-248 | on the branch, the generator's object; everywhere else the input's |
| `BranchCreator.ComputeChildNames` | src/GafferScene/BranchCreator.cpp:250-273 | on the branch, the generator's child names; at the location whose string equals `parent`, exactly `[name]`; otherwise, the input's |
| `BranchCreator.Hash` | src/GafferScene/BranchCreator.cpp:99-188 | hashing any plug into accumulator `h` yields the table-driven digest `DigestOf`. That digest is: globals, the input's; on the branch, the base hash then the generator's contribution; bound at an ancestor, the child-bounds digest; child names at the exact parent, the base hash then `name`; otherwise, the input's digest; plugs that are not output-scene children, the base hash |
| `BranchCreator.RegimeAgreement` | src/GafferScene/BranchCreator.cpp:113-273 | for every property kind, value and digest come from the same regime: generator/generator, child-bounds union/its digest, `[name]`/base+`name`, input value/input digest verbatim |
| `BranchCreator.OffBranchKeepsUpstream` | src/GafferScene/BranchCreator.cpp:129-248 | off the branch, including ancestors and the exact parent, transform, attributes and object have the input's value and the input's digest |
| `BranchCreator.AncestorBound` | src/GafferScene/BranchCreator.cpp:113-206 | at `parent` or any ancestor, with `parent` non-empty, the bound is the child-bounds union and its digest is the child-bounds digest |
| `BranchCreator.ExactParentChildNames` | src/GafferScene/BranchCreator.cpp:165-273 | at `path == parent`, the child names are `[name]` and their digest is the base hash followed by `name`; elsewhere off the branch, both are the input's |
| `BranchCreator.TrailingSlashParent` | src/GafferScene/BranchCreator.cpp:113-273 | for every location `p`, with `parent = p + "/"`: `p` is in the ancestor regime, its bound and bound digest are the child-bounds union's, and its child names and their digest are the input's, not `[name]` |
| `BranchCreator.GlobalsPassThrough` | src/GafferScene/BranchCreator.cpp:275-278 | for every location and setting, the globals and their digest (hashed at lines 103-105) are the input's |
| `BranchCreator.HashComputeConsistency` | src/GafferScene/BranchCreator.cpp:99-273 | at a fixed location and settings, if the collaborators' digests are faithful, equal output digests imply equal output values |
| `BranchCreator.DirectlyAffected` | src/GafferScene/BranchCreator.cpp:85-97 | an input-scene child dirties the output child of the same name; `parent` or `name` dirties the whole output scene, hence every output child; nothing else dirties an output child; at most one plug is added |
| `BranchCreator.Affects` | src/GafferScene/BranchCreator.cpp:85-97 | the container gets the base class's plugs first, then the branch creator's own dependencies |
| `Examples.BelowBranchRoot` | src/GafferScene/BranchCreator.cpp:317-327 | for any tokens `a, b, n, x`, `/a/b/n/x` with parent `/a/b` and name `n` classifies as (`/a/b`, `/x`) |
| `Examples.InsideBranch` | src/GafferScene/BranchCreator.cpp:317-327 | `/a/b/child/x` classifies as (`/a/b`, `/x`) |
| `Examples.BranchRoot` | src/GafferScene/BranchCreator.cpp:317-327 | `/a/b/child`, the new child itself, classifies as (`/a/b`, `/`) |
| `Examples.StrictAncestor` | src/GafferScene/BranchCreator.cpp:304-309 | `/a` classifies as (`/a/b`, empty) |
| `Examples.ExactParentCase` | src/GafferScene/BranchCreator.cpp:258-267 | `/a/b` classifies as (`/a/b`, empty), and its child names are exactly `["child"]` |
| `Examples.Sibling` | src/GafferScene/BranchCreator.cpp:292-302 | `/a/c` is unrelated |
| `Examples.Unrelated` | src/GafferScene/BranchCreator.cpp:292-302 | `/x/y` is unrelated |
| `Examples.TrailingSlashParentCase` | src/GafferScene/BranchCreator.cpp:258 | with `parent = "/a/b/"`, `/a/b` is in the ancestor regime: bound is the child-bounds union; child names stay the input's |
| `Examples.EmptyParentRoot` | src/GafferScene/BranchCreator.cpp:198 | with `parent = ""`, the root classifies as (empty, empty) and its bound is the input's |
| `Examples.EmptyParentExistingChild` | src/GafferScene/BranchCreator.cpp:250-327 | with `parent = ""` and an input root that already has a child `n`: the root lists `n`, `/n` classifies as (empty, `/`), and its child names are the generator's |
| `Examples.EmptyParentBranch` | src/GafferScene/BranchCreator.cpp:250-327 | with `parent = ""`, for any tokens `n`, `x`: `/n/x` classifies as (empty, `/x`), yet the root's child names are the input's |

## Left out

- The plug and graph framework is not modelled: `StringPlug::getValue`, the `scene:path` context lookup, scene-plug child lookup, `storeIndexOfNextChild`, the constructor, the plug accessors and runtime-type registration (lines 49-83). The settings and the queried location are plain parameters.
- The branch generator sees only the parent path and the branch path. Any other context variable the real `computeBranch*`/`hashBranch*` might read is not modelled. Those functions are implemented in subclasses; here they stay uninterpreted.
- `unionOfTransformedChildBounds` and `hashOfTransformedChildBounds` are defined elsewhere and are opaque functions of the location. Box and matrix arithmetic is float geometry and is not modelled, so bound containment at ancestors is not stated.
- MurmurHash bit mixing is not modelled. A digest is the term of what was appended. `SceneProcessor::hash` appends an opaque identity of the output plug, and the base class's `affects` becomes the parameter `inherited`.
- When the output is a child of the output scene but none of the six known properties, the source leaves `h` unchanged. The model's closed set of property kinds cannot express that case.
- Caching, dirty propagation and multi-threaded evaluation belong to the framework and are not modelled.
- BranchCreator.HashComputeConsistency: proves only that equal digests give equal values, assuming the collaborators' digests are faithful. The converse does not hold for this code: a pass-through digest can change while the value stays the same.

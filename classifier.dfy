/**
 Where a queried location stands relative to the insertion point: the
 configured `parent` location and the `name` of the new child grafted under
 it. This is `BranchCreator::parentAndBranchPaths`.
 */
module Classifier {
  import opened Paths

  /**
   The pair of strings the classification produces. Both empty: unrelated.
   `parentPath` the configured parent and `branchPath` empty: the parent or
   one of its ancestors. `branchPath` set: on the new branch, `branchPath`
   being the location below the new child (`"/"` for the child itself) and
   `parentPath` the configured parent. An empty `parent` blurs these: its
   ancestors are classified like unrelated locations, and on the branch
   `parentPath` stays empty.
   */
  datatype Classification = Classification(parentPath: string, branchPath: string)

  /** The location's tokens are a prefix of (or equal to) the parent's: the parent or an ancestor of it. */
  predicate AncestorOrSelf(path: string, parent: string) {
    Tokens(path) <= Tokens(parent)
  }

  /** The parent's tokens are a strict prefix of the location's and the next token is `name`. */
  predicate OnBranch(path: string, parent: string, name: string) {
    var pt, qt := Tokens(parent), Tokens(path);
    |pt| < |qt| && pt <= qt && qt[|pt|] == name
  }

  /** The location's tokens that lie below the new child. */
  function BranchTokens(path: string, parent: string, name: string): (ts: seq<string>)
    requires OnBranch(path, parent, name)
    ensures Tokens(path) == Tokens(parent) + [name] + ts
  {
    var pt, qt := Tokens(parent), Tokens(path);
    assert qt == qt[..|pt|] + [qt[|pt|]] + qt[|pt| + 1..];
    qt[|pt| + 1..]
  }

  /** The branch path of a location on the branch: the tokens below the new child, re-joined after a leading `/`. */
  function BranchSuffix(path: string, parent: string, name: string): string
    requires OnBranch(path, parent, name)
  {
    "/" + Join(BranchTokens(path, parent, name))
  }

  /** The classification of `path`, stated by how its tokens relate to those of `parent`. */
  function Classify(path: string, parent: string, name: string): Classification {
    if AncestorOrSelf(path, parent) then Classification(parent, "")
    else if OnBranch(path, parent, name) then Classification(parent, BranchSuffix(path, parent, name))
    else Classification("", "")
  }

  /**
   The lock-step walk over the two token sequences. The out-parameters start
   empty, as every caller passes fresh strings, and are left so on the early
   returns.
   */
  method ParentAndBranchPaths(path: string, parent: string, name: string)
    returns (parentPath: string, branchPath: string)
    ensures Classification(parentPath, branchPath) == Classify(path, parent, name)
  {
    parentPath, branchPath := "", "";
    var parentTokens, pathTokens := Tokens(parent), Tokens(path);
    var i := 0;
    while i < |parentTokens| && i < |pathTokens|
      invariant 0 <= i <= |parentTokens| && i <= |pathTokens|
      invariant parentTokens[..i] == pathTokens[..i]
    {
      if parentTokens[i] != pathTokens[i] {
        return;
      }
      i := i + 1;
    }
    if i == |pathTokens| {
      // ancestor of the parent, or the parent itself
      assert pathTokens == parentTokens[..i];
      parentPath := parent;
      return;
    }
    assert i == |parentTokens| && parentTokens == pathTokens[..i];
    assert !AncestorOrSelf(path, parent);
    if pathTokens[i] != name {
      // another child of the parent
      return;
    }
    i := i + 1;
    // somewhere on the new branch
    ghost var start := i;
    assert pathTokens[start..] == BranchTokens(path, parent, name);
    parentPath := parent;
    branchPath := "/";
    while i < |pathTokens|
      invariant start <= i <= |pathTokens|
      invariant branchPath == "/" + Join(pathTokens[start..i])
      invariant i > start ==> |branchPath| > 1
    {
      if |branchPath| > 1 {
        JoinSnoc(pathTokens[start..i], pathTokens[i]);
        branchPath := branchPath + "/";
      } else {
        assert pathTokens[start..i] == [];
      }
      assert pathTokens[start..i + 1] == pathTokens[start..i] + [pathTokens[i]];
      branchPath := branchPath + pathTokens[i];
      i := i + 1;
    }
    assert pathTokens[start..i] == pathTokens[start..];
  }

  /** A token of the location that differs from the parent's at a shared position makes it unrelated. */
  lemma DivergenceIsUnrelated(path: string, parent: string, name: string, i: nat)
    requires i < |Tokens(parent)| && i < |Tokens(path)|
    requires Tokens(parent)[i] != Tokens(path)[i]
    ensures Classify(path, parent, name) == Classification("", "")
  {
  }

  /** Under the parent, a child other than `name` is unrelated. */
  lemma SiblingIsUnrelated(path: string, parent: string, name: string)
    requires Tokens(parent) < Tokens(path)
    requires Tokens(path)[|Tokens(parent)|] != name
    ensures Classify(path, parent, name) == Classification("", "")
  {
  }

  /** The parent and its ancestors get the full configured parent string and no branch path. */
  lemma AncestorOrSelfKeepsParent(path: string, parent: string, name: string)
    requires Tokens(path) <= Tokens(parent)
    ensures Classify(path, parent, name) == Classification(parent, "")
  {
  }

  /**
   On the branch the parent path is the configured parent and the branch path
   is `/` and the remaining tokens joined; it is `"/"` exactly when none
   remain, and splitting it gives those tokens back.
   */
  lemma OnBranchPaths(path: string, parent: string, name: string, rest: seq<string>)
    requires Tokens(path) == Tokens(parent) + [name] + rest
    ensures Classify(path, parent, name).parentPath == parent
    ensures Classify(path, parent, name).branchPath == "/" + Join(rest)
    ensures Classify(path, parent, name).branchPath[0] == '/'
    ensures Classify(path, parent, name).branchPath == "/" <==> rest == []
    ensures Tokens(Classify(path, parent, name).branchPath) == rest
  {
    var pt, qt := Tokens(parent), Tokens(path);
    assert qt[..|pt|] == pt;
    assert qt[|pt|] == name;
    assert OnBranch(path, parent, name);
    assert BranchTokens(path, parent, name) == rest by {
      assert qt[|pt| + 1..] == rest;
    }
    assert forall i :: 0 <= i < |rest| ==> IsToken(rest[i]) by {
      forall i | 0 <= i < |rest| ensures IsToken(rest[i]) {
        assert rest[i] == qt[|pt| + 1 + i];
      }
    }
    JoinShape(rest);
    TokensOfJoin(rest);
  }

  /**
   The combined outcomes: a branch path is only ever set together with the
   configured parent as parent path, and a parent path that is set is the
   configured parent (so for an empty `parent` both on-branch and ancestor
   locations have an empty parent path).
   */
  lemma ClassificationStates(path: string, parent: string, name: string)
    ensures var c := Classify(path, parent, name);
      (c.branchPath != "" ==> c.parentPath == parent && c.branchPath[0] == '/')
      && (c.parentPath != "" ==> c.parentPath == parent)
      && (c.branchPath == "" <==> !OnBranch(path, parent, name))
      && (c.parentPath == parent <==> parent == "" || AncestorOrSelf(path, parent) || OnBranch(path, parent, name))
  {
  }
}

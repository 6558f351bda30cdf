/**
 Worked cases of the classification and of the routing they lead to, with
 `parent = "/a/b"` and `name = "child"` unless stated otherwise.
 */
module Examples {
  import opened Paths
  import opened Classifier
  import opened SceneTypes
  import opened BranchCreator

  lemma OneToken(a: string)
    requires IsToken(a)
    ensures Tokens("/" + a) == [a]
  {
    assert "/" + a == "/" + a + "";
    SlashThenToken(a, "");
  }

  lemma TwoTokens(a: string, b: string)
    requires IsToken(a) && IsToken(b)
    ensures Tokens("/" + a + "/" + b) == [a, b]
  {
    var x := "/" + b;
    assert "/" + a + "/" + b == "/" + a + x;
    SlashThenToken(a, x);
    OneToken(b);
  }

  lemma ThreeTokens(a: string, b: string, c: string)
    requires IsToken(a) && IsToken(b) && IsToken(c)
    ensures Tokens("/" + a + "/" + b + "/" + c) == [a, b, c]
  {
    var x := "/" + b + "/" + c;
    assert "/" + a + "/" + b + "/" + c == "/" + a + x;
    SlashThenToken(a, x);
    TwoTokens(b, c);
  }

  lemma FourTokens(a: string, b: string, c: string, d: string)
    requires IsToken(a) && IsToken(b) && IsToken(c) && IsToken(d)
    ensures Tokens("/" + a + "/" + b + "/" + c + "/" + d) == [a, b, c, d]
  {
    var x := "/" + b + "/" + c + "/" + d;
    assert "/" + a + "/" + b + "/" + c + "/" + d == "/" + a + x;
    SlashThenToken(a, x);
    ThreeTokens(b, c, d);
  }

  /** The tokens of the parent `/a/b`. */
  lemma TokensOfAB()
    ensures Tokens("/a/b") == ["a", "b"]
  {
    TwoTokens("a", "b");
    assert "/a/b" == "/" + "a" + "/" + "b";
  }

  /** For any tokens: a location one level below the new child has that level as its branch path. */
  lemma BelowBranchRoot(a: string, b: string, n: string, x: string)
    requires IsToken(a) && IsToken(b) && IsToken(n) && IsToken(x)
    ensures Classify("/" + a + "/" + b + "/" + n + "/" + x, "/" + a + "/" + b, n)
      == Classification("/" + a + "/" + b, "/" + x)
  {
    var path, parent := "/" + a + "/" + b + "/" + n + "/" + x, "/" + a + "/" + b;
    TwoTokens(a, b);
    FourTokens(a, b, n, x);
    assert [a, b, n, x] == [a, b] + [n] + [x];
    OnBranchPaths(path, parent, n, [x]);
    assert Join([x]) == x;
  }

  /** A location two levels inside the branch. */
  lemma InsideBranch()
    ensures Classify("/a/b/child/x", "/a/b", "child") == Classification("/a/b", "/x")
  {
    BelowBranchRoot("a", "b", "child", "x");
    assert "/a/b/child/x" == "/" + "a" + "/" + "b" + "/" + "child" + "/" + "x";
    assert "/a/b" == "/" + "a" + "/" + "b";
  }

  /** A strict ancestor of the parent. */
  lemma StrictAncestor()
    ensures Classify("/a", "/a/b", "child") == Classification("/a/b", "")
  {
    TokensOfAB();
    OneToken("a");
    AncestorOrSelfKeepsParent("/a", "/a/b", "child");
  }

  /** The parent itself; its child list is replaced by the new child alone. */
  lemma ExactParentCase(up: UpstreamScene, agg: ChildBounds, gen: BranchGenerator)
    ensures Classify("/a/b", "/a/b", "child") == Classification("/a/b", "")
    ensures ComputeChildNames("/a/b", Config("/a/b", "child"), up, gen) == ["child"]
  {
    ExactParentChildNames("/a/b", Config("/a/b", "child"), up, agg, gen, Seed);
  }

  /** A sibling of the new child under the parent. */
  lemma Sibling()
    ensures Classify("/a/c", "/a/b", "child") == Classification("", "")
  {
    TokensOfAB();
    TwoTokens("a", "c");
    assert "/a/c" == "/" + "a" + "/" + "c";
    DivergenceIsUnrelated("/a/c", "/a/b", "child", 1);
  }

  /** A location on an unrelated part of the scene. */
  lemma Unrelated()
    ensures Classify("/x/y", "/a/b", "child") == Classification("", "")
  {
    TokensOfAB();
    TwoTokens("x", "y");
    assert "/x/y" == "/" + "x" + "/" + "y";
    DivergenceIsUnrelated("/x/y", "/a/b", "child", 0);
  }

  /** The new child itself has the branch path `"/"`. */
  lemma BranchRoot()
    ensures Classify("/a/b/child", "/a/b", "child") == Classification("/a/b", "/")
  {
    TokensOfAB();
    ThreeTokens("a", "b", "child");
    assert "/a/b/child" == "/" + "a" + "/" + "b" + "/" + "child";
    assert ["a", "b", "child"] == ["a", "b"] + ["child"] + [];
    OnBranchPaths("/a/b/child", "/a/b", "child", []);
  }

  /**
   With `parent = "/a/b/"` the location `/a/b` is in the ancestor regime
   (same tokens), yet its strings differ, so its child names stay the input's.
   */
  lemma TrailingSlashParentCase(up: UpstreamScene, agg: ChildBounds, gen: BranchGenerator)
    ensures Classify("/a/b", "/a/b/", "child") == Classification("/a/b/", "")
    ensures ComputeBound("/a/b", Config("/a/b/", "child"), up, agg, gen) == agg.union("/a/b")
    ensures ComputeChildNames("/a/b", Config("/a/b/", "child"), up, gen) == up.childNames("/a/b")
  {
    assert "/a/b" + "/" == "/a/b/";
    BranchCreator.TrailingSlashParent("/a/b", "child", up, agg, gen, Seed);
  }

  /**
   With an empty `parent` the root is classified with the empty parent
   path, so its bound is the input's rather than a union of child bounds.
   */
  lemma EmptyParentRoot(up: UpstreamScene, agg: ChildBounds, gen: BranchGenerator)
    ensures Classify("/", "", "child") == Classification("", "")
    ensures ComputeBound("/", Config("", "child"), up, agg, gen) == up.bound("/")
  {
    assert Tokens("/") == Tokens("");
  }

  /**
   With an empty `parent` the branch hangs below the root: a location
   `/n/x` is on it, with an empty parent path and branch path `/x`. Yet the
   root's child names are the input's, since `"/"` is not the string `""`,
   so the root does not list the new child.
   */
  lemma EmptyParentBranch(n: string, x: string, up: UpstreamScene, gen: BranchGenerator)
    requires IsToken(n) && IsToken(x)
    ensures Classify("/" + n + "/" + x, "", n) == Classification("", "/" + x)
    ensures ComputeChildNames("/", Config("", n), up, gen) == up.childNames("/")
  {
    TwoTokens(n, x);
    assert Tokens("") == [];
    assert [n, x] == [] + [n] + [x];
    OnBranchPaths("/" + n + "/" + x, "", n, [x]);
    assert Join([x]) == x;
    assert Tokens("/") == Tokens("");
  }

  /**
   With an empty `parent`, the branch is reachable only when the input root
   already has a child `n`: the root then lists it, `/n` is the branch root,
   and its child names are the generator's instead of the input's.
   */
  lemma EmptyParentExistingChild(n: string, up: UpstreamScene, gen: BranchGenerator)
    requires IsToken(n)
    requires n in up.childNames("/")
    ensures n in ComputeChildNames("/", Config("", n), up, gen)
    ensures Classify("/" + n, "", n) == Classification("", "/")
    ensures ComputeChildNames("/" + n, Config("", n), up, gen) == gen.childNames("", "/")
  {
    EmptyParentBranch(n, "x", up, gen);
    OneToken(n);
    assert Tokens("") == [];
    assert [n] == [] + [n] + [];
    OnBranchPaths("/" + n, "", n, []);
  }
}

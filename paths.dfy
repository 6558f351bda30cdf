/**
 Scene locations as text. A location is written as name tokens separated by
 `/`; reading it back splits on `/` and discards the empty pieces, which is
 what a `boost::char_separator("/")` tokenizer with its default policy does.
 */
module Paths {

  /** A token as the tokenizer produces it: non-empty and free of `/`. */
  predicate IsToken(t: string) {
    |t| > 0 && forall i :: 0 <= i < |t| ==> t[i] != '/'
  }

  /** Length of the longest prefix of `s` that holds no `/`. */
  function WordLength(s: string): (n: nat)
    ensures n <= |s|
    ensures forall i :: 0 <= i < n ==> s[i] != '/'
    ensures n < |s| ==> s[n] == '/'
  {
    if s == [] || s[0] == '/' then 0 else 1 + WordLength(s[1..])
  }

  /** The tokens of `s`: split on `/`, empty pieces dropped. */
  function Tokens(s: string): (r: seq<string>)
    ensures forall i :: 0 <= i < |r| ==> IsToken(r[i])
    ensures |r| <= |s|
    decreases |s|
  {
    if s == [] then []
    else if s[0] == '/' then Tokens(s[1..])
    else
      var n := WordLength(s);
      [s[..n]] + Tokens(s[n..])
  }

  /** The tokens `ts` joined with `/` between consecutive ones. */
  function Join(ts: seq<string>): string {
    if |ts| == 0 then ""
    else if |ts| == 1 then ts[0]
    else ts[0] + "/" + Join(ts[1..])
  }

  /** Appending one more token to a non-empty join adds a separator and the token. */
  lemma {:induction false} JoinSnoc(ts: seq<string>, t: string)
    requires |ts| > 0
    ensures Join(ts + [t]) == Join(ts) + "/" + t
  {
    if |ts| == 1 {
      assert ts + [t] == [ts[0], t];
      assert (ts + [t])[1..] == [t];
    } else {
      assert (ts + [t])[1..] == ts[1..] + [t];
      JoinSnoc(ts[1..], t);
    }
  }

  /** Joining tokens never needs `/` at the front, and a non-empty list of tokens joins to a non-empty string. */
  lemma JoinShape(ts: seq<string>)
    requires forall i :: 0 <= i < |ts| ==> IsToken(ts[i])
    ensures |ts| > 0 ==> |Join(ts)| > 0 && Join(ts)[0] != '/'
    ensures |ts| == 0 ==> Join(ts) == ""
  {
  }

  /** A token followed by the end of the text or by `/` is read whole. */
  lemma TokenThenRest(t: string, x: string)
    requires IsToken(t)
    requires x == [] || x[0] == '/'
    ensures Tokens(t + x) == [t] + Tokens(x)
  {
    var s := t + x;
    assert s[0] == t[0];
    WordLengthOf(t, x);
    assert s[..|t|] == t;
    assert s[|t|..] == x;
  }

  /** `/` then a token then the end of the text or another `/`: that token comes first. */
  lemma SlashThenToken(t: string, x: string)
    requires IsToken(t)
    requires x == [] || x[0] == '/'
    ensures Tokens("/" + t + x) == [t] + Tokens(x)
  {
    assert ("/" + t + x)[1..] == t + x;
    TokenThenRest(t, x);
  }

  lemma {:induction false} WordLengthOf(t: string, x: string)
    requires forall i :: 0 <= i < |t| ==> t[i] != '/'
    requires x == [] || x[0] == '/'
    ensures WordLength(t + x) == |t|
  {
    if t != [] {
      assert (t + x)[1..] == t[1..] + x;
      WordLengthOf(t[1..], x);
    } else {
      assert t + x == x;
    }
  }

  /**
   A separator between two texts splits them apart: the tokens of the whole
   are those of the left text followed by those of the right. With an empty
   side this says that leading, trailing and repeated separators add no
   tokens.
   */
  lemma {:induction false} TokensAroundSlash(s: string, t: string)
    ensures Tokens(s + "/" + t) == Tokens(s) + Tokens(t)
    decreases |s|
  {
    var u := s + "/" + t;
    if s == [] {
      assert u[1..] == t;
    } else if s[0] == '/' {
      assert u[1..] == s[1..] + "/" + t;
      TokensAroundSlash(s[1..], t);
    } else {
      var n := WordLength(s);
      var x := s[n..] + "/" + t;
      assert u == s[..n] + x;
      WordLengthOf(s[..n], x);
      assert u[..n] == s[..n];
      assert u[n..] == x;
      TokensAroundSlash(s[n..], t);
    }
  }

  /**
   Reading back a branch path: `/` followed by the joined tokens splits into
   exactly those tokens.
   */
  lemma {:induction false} TokensOfJoin(ts: seq<string>)
    requires forall i :: 0 <= i < |ts| ==> IsToken(ts[i])
    ensures Tokens("/" + Join(ts)) == ts
  {
    var s := "/" + Join(ts);
    assert s[1..] == Join(ts);
    if |ts| == 0 {
      assert Tokens("") == [];
    } else if |ts| == 1 {
      TokenThenRest(ts[0], "");
      assert ts[0] + "" == ts[0];
      assert Tokens("") == [];
    } else {
      var rest := "/" + Join(ts[1..]);
      assert Join(ts) == ts[0] + rest;
      TokenThenRest(ts[0], rest);
      TokensOfJoin(ts[1..]);
      assert ts == [ts[0]] + ts[1..];
    }
  }
}

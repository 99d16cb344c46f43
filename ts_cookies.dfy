/**
 * The cookie handling of the TypeScript client (packages/sekai-extractor/src/client.ts):
 * JavaScript's `String.prototype.split` on one separator, which `executeRequest` applies to
 * the `set-cookie` header, and the cookie jar with `Cookies.merge` semantics (every name keeps
 * the newest cookie given for it; nothing is ever removed).
 *
 * Parsing one `Set-Cookie` string into a cookie (`Cookies.fromSetCookie`) belongs to the HTTP
 * library and is a parameter of the client model, not part of this module.
 */
module Cookies {
  import opened Common

  /** A parsed cookie; its attributes (path, expiry, flags) are carried but never inspected. */
  datatype Cookie = Cookie(name: string, value: string, attributes: string)

  /** The cookie jar: the newest cookie per name. */
  type Jar = map<string, Cookie>

  // ---------------------------------------------------------------- split

  /** `s.split(sep)` for a one-character separator: always at least one part, none holding `sep`. */
  function Split(s: string, sep: char): (parts: seq<string>)
    ensures |parts| >= 1
    ensures forall i :: 0 <= i < |parts| ==> sep !in parts[i]
    decreases |s|
  {
    if |s| == 0 then [""]
    else
      var rest := Split(s[1..], sep);
      if s[0] == sep then [""] + rest
      else [[s[0]] + rest[0]] + rest[1..]
  }

  /** `parts.join(sep)`: the reference definition `Split` is checked against. */
  function Join(parts: seq<string>, sep: char): string
  {
    if |parts| == 0 then ""
    else if |parts| == 1 then parts[0]
    else parts[0] + [sep] + Join(parts[1..], sep)
  }

  /** Splitting loses nothing: joining the parts with the separator gives the string back. */
  lemma {:induction false} JoinSplit(s: string, sep: char)
    ensures Join(Split(s, sep), sep) == s
    decreases |s|
  {
    if |s| > 0 {
      var rest := Split(s[1..], sep);
      JoinSplit(s[1..], sep);
      if s[0] == sep {
        assert Split(s, sep) == [""] + rest;
        assert ([""] + rest)[1..] == rest;
        assert s == [sep] + s[1..];
      } else {
        var parts := [[s[0]] + rest[0]] + rest[1..];
        assert Split(s, sep) == parts;
        if |rest| == 1 {
          assert s == [s[0]] + rest[0];
        } else {
          assert parts[1..] == rest[1..];
          assert Join(rest, sep) == rest[0] + [sep] + Join(rest[1..], sep);
          assert s == [s[0]] + s[1..];
        }
      }
    }
  }

  /** Splitting a string with no separator gives it back whole. */
  lemma {:induction false} SplitNoSeparator(s: string, sep: char)
    requires sep !in s
    ensures Split(s, sep) == [s]
    decreases |s|
  {
    if |s| > 0 {
      assert sep !in s[1..] by {
        forall i | 0 <= i < |s[1..]| ensures s[1..][i] != sep { assert s[1..][i] == s[i + 1]; }
      }
      SplitNoSeparator(s[1..], sep);
      assert [s[0]] + s[1..] == s;
    }
  }

  // ---------------------------------------------------------------- merge

  /** `Cookies.merge(jar, fromList(cookies))`: each cookie, in order, replaces the jar's cookie of its name. */
  function Merge(jar: Jar, cookies: seq<Cookie>): (r: Jar)
    decreases |cookies|
  {
    if |cookies| == 0 then jar
    else Merge(jar[cookies[0].name := cookies[0]], cookies[1..])
  }

  /** The last cookie named `name` in the list, if any: an independent statement of last-write-wins. */
  function LastNamed(cookies: seq<Cookie>, name: string): (r: Option<Cookie>)
    ensures r.Some? ==> r.value in cookies && r.value.name == name
    ensures r.None? <==> forall i :: 0 <= i < |cookies| ==> cookies[i].name != name
    ensures r.Some? ==>
      exists i :: 0 <= i < |cookies| && cookies[i] == r.value && (forall j :: i < j < |cookies| ==> cookies[j].name != name)
    decreases |cookies|
  {
    if |cookies| == 0 then None
    else if cookies[|cookies| - 1].name == name then Some(cookies[|cookies| - 1])
    else LastNamed(cookies[..|cookies| - 1], name)
  }

  lemma {:induction false} LastNamedCons(c: Cookie, cookies: seq<Cookie>, name: string)
    ensures LastNamed([c] + cookies, name) ==
      if LastNamed(cookies, name).Some? then LastNamed(cookies, name)
      else if c.name == name then Some(c) else None
    decreases |cookies|
  {
    var all := [c] + cookies;
    if |cookies| > 0 {
      assert all[..|all| - 1] == [c] + cookies[..|cookies| - 1];
      assert all[|all| - 1] == cookies[|cookies| - 1];
      LastNamedCons(c, cookies[..|cookies| - 1], name);
    } else {
      assert all[..|all| - 1] == [];
    }
  }

  /**
   * Merging is last-write-wins per name: a name given in the list ends up with the last
   * cookie given for it, every other name keeps the jar's cookie, and no name is dropped.
   */
  lemma {:induction false} MergeLastWins(jar: Jar, cookies: seq<Cookie>, name: string)
    ensures LastNamed(cookies, name).Some? ==>
      name in Merge(jar, cookies) && Merge(jar, cookies)[name] == LastNamed(cookies, name).value
    ensures LastNamed(cookies, name).None? ==>
      (name in Merge(jar, cookies) <==> name in jar) &&
      (name in jar ==> Merge(jar, cookies)[name] == jar[name])
    decreases |cookies|
  {
    if |cookies| > 0 {
      var c := cookies[0];
      assert cookies == [c] + cookies[1..];
      LastNamedCons(c, cookies[1..], name);
      MergeLastWins(jar[c.name := c], cookies[1..], name);
    }
  }

  /** The jar is never pruned: every name it held is still there after a merge. */
  lemma {:induction false} MergeKeepsNames(jar: Jar, cookies: seq<Cookie>)
    ensures jar.Keys <= Merge(jar, cookies).Keys
    decreases |cookies|
  {
    if |cookies| > 0 {
      MergeKeepsNames(jar[cookies[0].name := cookies[0]], cookies[1..]);
    }
  }

  /** Two merges in a row are one merge of the concatenated lists. */
  lemma {:induction false} MergeTwice(jar: Jar, first: seq<Cookie>, second: seq<Cookie>)
    ensures Merge(Merge(jar, first), second) == Merge(jar, first + second)
    decreases |first|
  {
    if |first| > 0 {
      assert (first + second)[0] == first[0];
      assert (first + second)[1..] == first[1..] + second;
      MergeTwice(jar[first[0].name := first[0]], first[1..], second);
    } else {
      assert first + second == second;
    }
  }

  /** Merging `a=1` and then `a=2, b=1` into an empty jar leaves `a=2, b=1`. */
  lemma MergeExample()
    ensures
      var a1, a2, b1 := Cookie("a", "1", ""), Cookie("a", "2", ""), Cookie("b", "1", "");
      Merge(Merge(map[], [a1]), [a2, b1]) == map["a" := a2, "b" := b1]
  {
    var a1, a2, b1 := Cookie("a", "1", ""), Cookie("a", "2", ""), Cookie("b", "1", "");
    assert [a1][1..] == [];
    assert Merge(map[], [a1]) == map["a" := a1];
    assert [a2, b1][1..] == [b1] && [b1][1..] == [];
    assert map["a" := a1][a2.name := a2] == map["a" := a2];
    assert Merge(map["a" := a1], [a2, b1]) == Merge(map["a" := a2], [b1]);
    assert Merge(map["a" := a2], [b1]) == map["a" := a2, "b" := b1];
  }
}

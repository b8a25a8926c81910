/**
 * The matcher of lib/rest.js (`resourceFromUrl`) that maps a request url to one of
 * the registry's keys.
 */
module Resources {
  import opened Wrappers
  import opened Endpoints

  // ---------------------------------------------------------------------------
  // Case-insensitive patterns with one-character wildcards

  /** The case folding of a case-insensitive regular expression on ASCII letters. */
  function Fold(c: char): char
  {
    if 'A' <= c <= 'Z' then (c as int + 32) as char else c
  }

  /** An element of a compiled pattern: a literal character, or `[^/]`. */
  datatype PatternChar = Lit(c: char) | NonSlash

  /** A registry path as a regular expression: every `//` becomes `/([^/])/`, left to right. */
  function Compile(path: string): seq<PatternChar>
  {
    if |path| >= 2 && path[0] == '/' && path[1] == '/' then
      [Lit('/'), NonSlash, Lit('/')] + Compile(path[2..])
    else if path == [] then []
    else [Lit(path[0])] + Compile(path[1..])
  }

  predicate CharMatches(p: PatternChar, c: char)
  {
    match p
    case Lit(d) => Fold(d) == Fold(c)
    case NonSlash => c != '/'
  }

  /** The pattern matches the characters of `url` that start at position `i`. */
  predicate MatchesAt(pat: seq<PatternChar>, url: string, i: nat)
  {
    i + |pat| <= |url| && forall j :: 0 <= j < |pat| ==> CharMatches(pat[j], url[i + j])
  }

  /** `pattern.test(url)` for an unanchored pattern: it matches somewhere in `url`. */
  function Test(pat: seq<PatternChar>, url: string): (b: bool)
    ensures pat == [] ==> b
    ensures b ==> |pat| <= |url|
  {
    assert pat == [] ==> MatchesAt(pat, url, 0);
    exists i :: 0 <= i <= |url| && MatchesAt(pat, url, i)
  }

  // ---------------------------------------------------------------------------
  // The same matching, read directly off the path

  /**
   * The path matches `url` at `i`: each `//` stands for `/c/` with one character `c`
   * other than `/`, every other character stands for itself, ignoring case.
   */
  predicate PathMatchesAt(path: string, url: string, i: nat)
    decreases |path|
  {
    if path == [] then i <= |url|
    else if |path| >= 2 && path[0] == '/' && path[1] == '/' then
      i + 3 <= |url| && url[i] == '/' && url[i + 1] != '/' && url[i + 2] == '/' &&
      PathMatchesAt(path[2..], url, i + 3)
    else i < |url| && Fold(url[i]) == Fold(path[0]) && PathMatchesAt(path[1..], url, i + 1)
  }

  lemma FoldSlash(c: char)
    ensures Fold(c) == '/' <==> c == '/'
  {
  }

  /** The compiled pattern matches exactly where the path does. */
  lemma {:induction false} CompileCorrect(path: string, url: string, i: nat)
    ensures MatchesAt(Compile(path), url, i) <==> PathMatchesAt(path, url, i)
    decreases |path|
  {
    var pat := Compile(path);
    if path == [] {
    } else if |path| >= 2 && path[0] == '/' && path[1] == '/' {
      CompileCorrect(path[2..], url, i + 3);
      var rest := Compile(path[2..]);
      assert pat == [Lit('/'), NonSlash, Lit('/')] + rest;
      if MatchesAt(pat, url, i) {
        assert CharMatches(pat[0], url[i]) && CharMatches(pat[1], url[i + 1]) && CharMatches(pat[2], url[i + 2]);
        FoldSlash(url[i]);
        FoldSlash(url[i + 2]);
        forall j | 0 <= j < |rest| ensures CharMatches(rest[j], url[i + 3 + j]) {
          assert pat[j + 3] == rest[j];
        }
        assert MatchesAt(rest, url, i + 3);
        assert PathMatchesAt(path, url, i);
      }
      if PathMatchesAt(path, url, i) {
        forall j | 0 <= j < |pat| ensures CharMatches(pat[j], url[i + j]) {
          if j >= 3 {
            assert pat[j] == rest[j - 3];
            assert CharMatches(rest[j - 3], url[(i + 3) + (j - 3)]);
          } else if j != 1 {
            assert pat[j] == Lit('/') && url[i + j] == '/';
          }
        }
        assert MatchesAt(pat, url, i);
      }
    } else {
      CompileCorrect(path[1..], url, i + 1);
      var rest := Compile(path[1..]);
      assert pat == [Lit(path[0])] + rest;
      if MatchesAt(pat, url, i) {
        assert CharMatches(pat[0], url[i]);
        forall j | 0 <= j < |rest| ensures CharMatches(rest[j], url[i + 1 + j]) {
          assert pat[j + 1] == rest[j];
        }
      }
      if PathMatchesAt(path, url, i) {
        forall j | 0 <= j < |pat| ensures CharMatches(pat[j], url[i + j]) {
          if j >= 1 {
            assert pat[j] == rest[j - 1];
            assert CharMatches(rest[j - 1], url[(i + 1) + (j - 1)]);
          }
        }
      }
    }
  }

  // ---------------------------------------------------------------------------
  // Paths without `//`: case-insensitive substring search

  predicate NoDoubleSlash(path: string)
  {
    forall j :: 0 <= j < |path| - 1 ==> !(path[j] == '/' && path[j + 1] == '/')
  }

  /**
   * The shape of a compiled pattern: a path without `//` compiles to its own
   * characters, and every wildcard the compiler emits sits between two slashes.
   */
  lemma {:induction false} CompileShape(path: string)
    ensures NoDoubleSlash(path) ==>
      |Compile(path)| == |path| && forall j :: 0 <= j < |path| ==> Compile(path)[j] == Lit(path[j])
    ensures forall j :: 0 <= j < |Compile(path)| && Compile(path)[j] == NonSlash ==>
      0 < j < |Compile(path)| - 1 && Compile(path)[j - 1] == Lit('/') && Compile(path)[j + 1] == Lit('/')
    decreases |path|
  {
    var pat := Compile(path);
    if path == [] {
    } else if |path| >= 2 && path[0] == '/' && path[1] == '/' {
      CompileShape(path[2..]);
      var rest := Compile(path[2..]);
      assert pat == [Lit('/'), NonSlash, Lit('/')] + rest;
      forall j | 0 <= j < |pat| && pat[j] == NonSlash
        ensures 0 < j < |pat| - 1 && pat[j - 1] == Lit('/') && pat[j + 1] == Lit('/')
      {
        if j >= 3 {
          assert pat[j] == rest[j - 3] && pat[j + 1] == rest[j - 2];
          assert pat[j - 1] == rest[j - 4];
        }
      }
    } else {
      CompileShape(path[1..]);
      var rest := Compile(path[1..]);
      assert pat == [Lit(path[0])] + rest;
      if NoDoubleSlash(path) {
        forall j | 0 <= j < |path[1..]| - 1 ensures !(path[1..][j] == '/' && path[1..][j + 1] == '/') {
          assert path[1..][j] == path[j + 1] && path[1..][j + 1] == path[j + 2];
        }
        forall j | 0 <= j < |path| ensures pat[j] == Lit(path[j]) {
          if j > 0 {
            assert pat[j] == rest[j - 1] && path[1..][j - 1] == path[j];
          }
        }
      }
      forall j | 0 <= j < |pat| && pat[j] == NonSlash
        ensures 0 < j < |pat| - 1 && pat[j - 1] == Lit('/') && pat[j + 1] == Lit('/')
      {
        assert j > 0;
        assert pat[j] == rest[j - 1] && pat[j + 1] == rest[j];
        if j > 1 {
          assert pat[j - 1] == rest[j - 2];
        }
      }
    }
  }

  function FoldString(s: string): (r: string)
    ensures |r| == |s| && forall j :: 0 <= j < |s| ==> r[j] == Fold(s[j])
  {
    seq(|s|, j requires 0 <= j < |s| => Fold(s[j]))
  }

  /** `w` occurs in `s` as a contiguous substring. */
  predicate Contains(s: string, w: string)
  {
    exists i :: 0 <= i <= |s| && OccursAt(s, w, i)
  }

  predicate OccursAt(s: string, w: string, i: nat)
  {
    i + |w| <= |s| && s[i..i + |w|] == w
  }

  lemma {:induction false} PlainPathMatchesAt(path: string, url: string, i: nat)
    requires NoDoubleSlash(path)
    ensures PathMatchesAt(path, url, i) <==>
      i + |path| <= |url| && forall j :: 0 <= j < |path| ==> Fold(url[i + j]) == Fold(path[j])
    decreases |path|
  {
    if path != [] {
      assert NoDoubleSlash(path[1..]) by {
        forall j | 0 <= j < |path[1..]| - 1 ensures !(path[1..][j] == '/' && path[1..][j + 1] == '/') {
          assert path[1..][j] == path[j + 1] && path[1..][j + 1] == path[j + 2];
        }
      }
      PlainPathMatchesAt(path[1..], url, i + 1);
      if |path| >= 2 {
        assert !(path[0] == '/' && path[1] == '/');
      }
      if i + |path| <= |url| && forall j :: 0 <= j < |path| ==> Fold(url[i + j]) == Fold(path[j]) {
        forall j | 0 <= j < |path[1..]| ensures Fold(url[i + 1 + j]) == Fold(path[1..][j]) {
          assert Fold(url[i + (j + 1)]) == Fold(path[j + 1]);
        }
      }
      if PathMatchesAt(path, url, i) {
        forall j | 0 <= j < |path| ensures Fold(url[i + j]) == Fold(path[j]) {
          if j > 0 {
            assert Fold(url[i + 1 + (j - 1)]) == Fold(path[1..][j - 1]);
          }
        }
      }
    }
  }

  /**
   * A path without `//` matches exactly when it occurs in the url, ignoring case,
   * anywhere (the pattern is not anchored).
   */
  lemma PlainPathIsSubstring(path: string, url: string)
    requires NoDoubleSlash(path)
    ensures Test(Compile(path), url) <==> Contains(FoldString(url), FoldString(path))
  {
    var fu, fp := FoldString(url), FoldString(path);
    if Test(Compile(path), url) {
      var i :| 0 <= i <= |url| && MatchesAt(Compile(path), url, i);
      CompileCorrect(path, url, i);
      PlainPathMatchesAt(path, url, i);
      assert fu[i..i + |fp|] == fp;
      assert OccursAt(fu, fp, i);
    }
    if Contains(fu, fp) {
      var i :| 0 <= i <= |fu| && OccursAt(fu, fp, i);
      forall j | 0 <= j < |path| ensures Fold(url[i + j]) == Fold(path[j]) {
        assert fu[i..i + |fp|][j] == fp[j];
      }
      PlainPathMatchesAt(path, url, i);
      CompileCorrect(path, url, i);
    }
  }

  /** A `//` in a path matches `/c/` in the url for exactly one character `c` other than `/`. */
  lemma WildcardMatchesAt(a: string, b: string, url: string, i: nat)
    requires NoDoubleSlash(a) && (a == [] || a[|a| - 1] != '/')
    ensures PathMatchesAt(a + "//" + b, url, i) <==>
      PathMatchesAt(a, url, i) && i + |a| + 3 <= |url| &&
      url[i + |a|] == '/' && url[i + |a| + 1] != '/' && url[i + |a| + 2] == '/' &&
      PathMatchesAt(b, url, i + |a| + 3)
  {
    PathAppend(a, "//" + b, url, i);
    assert a + "//" + b == a + ("//" + b);
    assert ("//" + b)[2..] == b;
  }

  /** Matching a concatenation is matching its parts side by side, when no `//` straddles the join. */
  lemma {:induction false} PathAppend(a: string, b: string, url: string, i: nat)
    requires NoDoubleSlash(a)
    requires a == [] || b == [] || a[|a| - 1] != '/' || b[0] != '/'
    ensures PathMatchesAt(a + b, url, i) <==> PathMatchesAt(a, url, i) && PathMatchesAt(b, url, i + |a|)
    decreases |a|
  {
    if a == [] {
      assert a + b == b;
      PathMatchesAtInRange(b, url, i);
    } else {
      assert NoDoubleSlash(a[1..]) by {
        forall j | 0 <= j < |a[1..]| - 1 ensures !(a[1..][j] == '/' && a[1..][j + 1] == '/') {
          assert a[1..][j] == a[j + 1] && a[1..][j + 1] == a[j + 2];
        }
      }
      PathAppend(a[1..], b, url, i + 1);
      assert (a + b)[1..] == a[1..] + b;
      assert (a + b)[0] == a[0];
      if |a| >= 2 {
        assert !(a[0] == '/' && a[1] == '/');
        assert (a + b)[1] == a[1];
      } else if b != [] {
        assert (a + b)[1] == b[0];
      }
      PathMatchesAtInRange(b, url, i + |a|);
    }
  }

  lemma {:induction false} PathMatchesAtInRange(path: string, url: string, i: nat)
    ensures PathMatchesAt(path, url, i) ==> i + |path| <= |url|
    decreases |path|
  {
    if path == [] {
    } else if |path| >= 2 && path[0] == '/' && path[1] == '/' {
      PathMatchesAtInRange(path[2..], url, i + 3);
    } else {
      PathMatchesAtInRange(path[1..], url, i + 1);
    }
  }

  // ---------------------------------------------------------------------------
  // resourceFromUrl(url, post)

  /** With `post` set only POST entries are considered; without it, every entry is. */
  predicate Eligible(r: Resource, post: bool)
  {
    !post || r.verb == "POST"
  }

  /** Entry `j` of `reg` is eligible and its pattern matches the url. */
  predicate Hit(reg: seq<Resource>, j: nat, url: string, post: bool)
    requires j < |reg|
  {
    Eligible(reg[j], post) && Test(Compile(reg[j].path), url)
  }

  /** The index the scan of `reg` keeps after its first `n` entries: the first hit, once found. */
  function Winner(reg: seq<Resource>, url: string, post: bool, n: nat): (w: Option<nat>)
    requires n <= |reg|
    ensures w.Some? ==> w.value < n
  {
    if n == 0 then None
    else
      var w := Winner(reg, url, post, n - 1);
      if w.Some? then w
      else if Hit(reg, n - 1, url, post) then Some(n - 1)
      else None
  }

  /** The scan keeps the first entry among the first `n` that is a hit, if there is one. */
  lemma {:induction false} WinnerIsFirstHit(reg: seq<Resource>, url: string, post: bool, n: nat)
    requires n <= |reg|
    ensures Winner(reg, url, post, n).None? <==> forall j :: 0 <= j < n ==> !Hit(reg, j, url, post)
    ensures Winner(reg, url, post, n).Some? ==>
      var w := Winner(reg, url, post, n).value;
      Hit(reg, w, url, post) && forall j :: 0 <= j < w ==> !Hit(reg, j, url, post)
  {
    if n > 0 {
      WinnerIsFirstHit(reg, url, post, n - 1);
    }
  }

  function KeyAt(reg: seq<Resource>, w: Option<nat>): Option<string>
    requires w.Some? ==> w.value < |reg|
  {
    if w.Some? then Some(reg[w.value].Key()) else None
  }

  /** The key `resourceFromUrl(url, post)` returns (None for `undefined`). */
  function ResourceOf(url: string, post: bool): Option<string>
  {
    KeyAt(Registry, Winner(Registry, url, post, |Registry|))
  }

  /**
   * The `forEach` of `resourceFromUrl` over the entries of `reg`: once a key is
   * kept, later entries are skipped, and so are non-POST entries when `post` is set.
   */
  method Scan(reg: seq<Resource>, url: string, post: bool) returns (result: Option<string>)
    ensures result == KeyAt(reg, Winner(reg, url, post, |reg|))
  {
    result := None;
    for n := 0 to |reg|
      invariant result == KeyAt(reg, Winner(reg, url, post, n))
    {
      var resource := reg[n];
      if result.Some? || (post && resource.verb != "POST") {
        continue;
      }
      if Test(Compile(resource.path), url) {
        result := Some(resource.Key());
      }
    }
  }

  /** `resourceFromUrl(url, post)`: the scan over the registry. */
  method ResourceFromUrl(url: string, post: bool) returns (result: Option<string>)
    ensures result == ResourceOf(url, post)
  {
    result := Scan(Registry, url, post);
  }

  /**
   * The result is nothing exactly when no eligible entry matches; otherwise it is
   * the key of the first eligible entry, in registry order, whose pattern matches.
   */
  lemma ResourceOfIsFirstMatch(url: string, post: bool)
    ensures ResourceOf(url, post).None? <==>
      forall j :: 0 <= j < |Registry| ==> !Hit(Registry, j, url, post)
    ensures ResourceOf(url, post).Some? ==>
      exists w :: 0 <= w < |Registry| && ResourceOf(url, post) == Some(Registry[w].Key()) &&
        Hit(Registry, w, url, post) && forall j :: 0 <= j < w ==> !Hit(Registry, j, url, post)
  {
    WinnerIsFirstHit(Registry, url, post, |Registry|);
  }

  /** A result is always a registry key, and with `post` set it is a POST key. */
  lemma ResourceOfIsKey(url: string, post: bool)
    ensures ResourceOf(url, post).Some? ==> IsKey(ResourceOf(url, post).value)
    ensures post && ResourceOf(url, post).Some? ==>
      |ResourceOf(url, post).value| >= 5 && ResourceOf(url, post).value[..5] == "POST "
  {
    WinnerIsFirstHit(Registry, url, post, |Registry|);
    if ResourceOf(url, post).Some? {
      var w := Winner(Registry, url, post, |Registry|).value;
      assert Keys()[w] == Registry[w].Key();
    }
  }

  // ---------------------------------------------------------------------------
  // First match, not best match: shadowed entries and a worked example

  /**
   * An entry whose path extends an earlier entry's path can never be chosen when
   * the earlier entry is eligible whenever it is: every url that matches it also
   * matches the earlier one.
   */
  lemma ShadowedByPrefix(reg: seq<Resource>, j: nat, k: nat, rest: string, url: string, post: bool)
    requires j < k < |reg|
    requires reg[k].path == reg[j].path + rest
    requires NoDoubleSlash(reg[j].path)
    requires reg[j].path == [] || rest == [] || reg[j].path[|reg[j].path| - 1] != '/' || rest[0] != '/'
    requires reg[j].verb == "POST" || reg[k].verb != "POST"
    ensures Hit(reg, k, url, post) ==> Hit(reg, j, url, post)
    ensures Winner(reg, url, post, |reg|) != Some(k)
  {
    if Hit(reg, k, url, post) {
      var i :| 0 <= i <= |url| && MatchesAt(Compile(reg[k].path), url, i);
      CompileCorrect(reg[k].path, url, i);
      PathAppend(reg[j].path, rest, url, i);
      CompileCorrect(reg[j].path, url, i);
      assert MatchesAt(Compile(reg[j].path), url, i);
    }
    WinnerIsFirstHit(reg, url, post, |reg|);
    assert Winner(reg, url, post, |reg|) == Some(k) ==> !Hit(reg, j, url, post);
  }

  /** A url matches `a + "//" + b` only where it also matches `a + "/"`. */
  lemma WildcardImpliesSlash(a: string, b: string, url: string)
    requires NoDoubleSlash(a) && a != [] && a[|a| - 1] != '/'
    ensures Test(Compile(a + "//" + b), url) ==> Test(Compile(a + "/"), url)
  {
    if Test(Compile(a + "//" + b), url) {
      var i :| 0 <= i <= |url| && MatchesAt(Compile(a + "//" + b), url, i);
      CompileCorrect(a + "//" + b, url, i);
      WildcardMatchesAt(a, b, url, i);
      PathAppend(a, "/", url, i);
      assert PathMatchesAt("/", url, i + |a|) by {
        assert "/"[1..] == [];
      }
      CompileCorrect(a + "/", url, i);
    }
  }

  /** `GET direct_messages/sent` (entry 13) loses to `GET direct_messages` (entry 12). */
  lemma DirectMessagesSentShadowed(url: string, post: bool)
    ensures Winner(Registry, url, post, |Registry|) != Some(13)
  {
    DirectMessagesHead();
    DirectMessagesEntries();
    assert NoDoubleSlash("direct_messages");
    ShadowedByPrefix(Registry, 12, 13, "/sent", url, post);
  }

  /** `GET direct_messages/show` (entry 14) loses to `GET direct_messages` (entry 12). */
  lemma DirectMessagesShowShadowed(url: string, post: bool)
    ensures Winner(Registry, url, post, |Registry|) != Some(14)
  {
    DirectMessagesHead();
    DirectMessagesEntries();
    assert NoDoubleSlash("direct_messages");
    ShadowedByPrefix(Registry, 12, 14, "/show", url, post);
  }

  /**
   * The same for an entry `a//b` after an entry `a/`: whatever the wildcard stands
   * for, the url also holds `a/`.
   */
  lemma ShadowedByWildcardPrefix(reg: seq<Resource>, j: nat, k: nat, a: string, b: string, url: string, post: bool)
    requires j < k < |reg|
    requires reg[k].path == a + "//" + b && reg[j].path == a + "/"
    requires NoDoubleSlash(a) && a != [] && a[|a| - 1] != '/'
    requires reg[j].verb == "POST" || reg[k].verb != "POST"
    ensures Hit(reg, k, url, post) ==> Hit(reg, j, url, post)
    ensures Winner(reg, url, post, |reg|) != Some(k)
  {
    WildcardImpliesSlash(a, b, url);
    WinnerIsFirstHit(reg, url, post, |reg|);
    assert Winner(reg, url, post, |reg|) == Some(k) ==> !Hit(reg, j, url, post);
  }

  /** `GET users/suggestions//members` (entry 51) loses to `GET users/suggestions/` (entry 49). */
  lemma SuggestionMembersShadowed(url: string, post: bool)
    ensures Winner(Registry, url, post, |Registry|) != Some(51)
  {
    SuggestionsEntries();
    assert NoDoubleSlash("users/suggestions");
    ShadowedByWildcardPrefix(Registry, 49, 51, "users/suggestions", "members", url, post);
  }

  /** `GET lists/subscribers/show` (entry 62) loses to `GET lists/subscribers` (entry 60). */
  lemma SubscriberShowShadowed(url: string, post: bool)
    ensures Winner(Registry, url, post, |Registry|) != Some(62)
  {
    ListsEntries();
    assert NoDoubleSlash("lists/subscribers");
    ShadowedByPrefix(Registry, 60, 62, "/show", url, post);
  }

  /** `GET lists/members/destroy_all` (entry 73) loses to `POST lists/members/destroy` (entry 58). */
  lemma MembersDestroyAllShadowed(url: string, post: bool)
    ensures Winner(Registry, url, post, |Registry|) != Some(73)
  {
    ListsEntries();
    assert NoDoubleSlash("lists/members/destroy");
    ShadowedByPrefix(Registry, 58, 73, "_all", url, post);
  }

  /**
   * `POST statuses/update_with_media` (entry 9) loses to `POST statuses/update`
   * (entry 7), with `post` set or not.
   */
  lemma UpdateWithMediaShadowed(url: string, post: bool)
    ensures Winner(Registry, url, post, |Registry|) != Some(9)
  {
    StatusesUpdateEntry();
    UpdateWithMediaEntry();
    assert NoDoubleSlash("statuses/update");
    ShadowedByPrefix(Registry, 7, 9, "_with_media", url, post);
  }

  /** `POST account/update_profile_background_image` (entry 34) loses to `POST account/update_profile` (entry 33). */
  lemma ProfileBackgroundImageShadowed(url: string, post: bool)
    ensures Winner(Registry, url, post, |Registry|) != Some(34)
  {
    UpdateProfileEntry();
    BackgroundImageEntry();
    assert NoDoubleSlash("account/update_profile");
    ShadowedByPrefix(Registry, 33, 34, "_background_image", url, post);
  }

  /** `POST account/update_profile_colors` (entry 35) loses to `POST account/update_profile` (entry 33). */
  lemma ProfileColorsShadowed(url: string, post: bool)
    ensures Winner(Registry, url, post, |Registry|) != Some(35)
  {
    UpdateProfileEntry();
    ProfileColorsEntry();
    assert NoDoubleSlash("account/update_profile");
    ShadowedByPrefix(Registry, 33, 35, "_colors", url, post);
  }

  /** `POST account/update_profile_image` (entry 36) loses to `POST account/update_profile` (entry 33). */
  lemma ProfileImageShadowed(url: string, post: bool)
    ensures Winner(Registry, url, post, |Registry|) != Some(36)
  {
    UpdateProfileEntry();
    ProfileImageEntry();
    assert NoDoubleSlash("account/update_profile");
    ShadowedByPrefix(Registry, 33, 36, "_image", url, post);
  }

  /** `POST account/update_profile_banner` (entry 47) loses to `POST account/update_profile` (entry 33). */
  lemma ProfileBannerShadowed(url: string, post: bool)
    ensures Winner(Registry, url, post, |Registry|) != Some(47)
  {
    UpdateProfileEntry();
    ProfileBannerEntry();
    assert NoDoubleSlash("account/update_profile");
    ShadowedByPrefix(Registry, 33, 47, "_banner", url, post);
  }

  /** A url in which no character folds to the path's `k`-th character is never matched. */
  lemma MissingLetter(path: string, pre: string, rest: string, k: nat, url: string)
    requires path == pre + rest && NoDoubleSlash(pre) && pre != [] && pre[|pre| - 1] != '/'
    requires k < |pre|
    requires forall m :: 0 <= m < |url| ==> Fold(url[m]) != Fold(pre[k])
    ensures !Test(Compile(path), url)
  {
    if Test(Compile(path), url) {
      var i :| 0 <= i <= |url| && MatchesAt(Compile(path), url, i);
      CompileCorrect(path, url, i);
      PathAppend(pre, rest, url, i);
      PlainPathMatchesAt(pre, url, i);
    }
  }

  /** No entry among the first `n` whose path starts with `pre` matches a url lacking one of `pre`'s letters. */
  lemma NoPrefixHit(reg: seq<Resource>, n: nat, pre: string, k: nat, url: string, post: bool)
    requires n <= |reg|
    requires forall j :: 0 <= j < n ==> |reg[j].path| >= |pre| && reg[j].path[..|pre|] == pre
    requires NoDoubleSlash(pre) && pre != [] && pre[|pre| - 1] != '/' && k < |pre|
    requires forall m :: 0 <= m < |url| ==> Fold(url[m]) != Fold(pre[k])
    ensures forall j :: 0 <= j < n ==> !Hit(reg, j, url, post)
  {
    forall j | 0 <= j < n ensures !Hit(reg, j, url, post) {
      var path := reg[j].path;
      assert path == pre + path[|pre|..];
      MissingLetter(path, pre, path[|pre|..], k, url);
    }
  }

  /** The first entry that is a hit is the one the scan keeps. */
  lemma FirstHit(reg: seq<Resource>, k: nat, url: string, post: bool)
    requires k < |reg|
    requires forall j :: 0 <= j < k ==> !Hit(reg, j, url, post)
    requires Hit(reg, k, url, post)
    ensures Winner(reg, url, post, |reg|) == Some(k)
    ensures KeyAt(reg, Winner(reg, url, post, |reg|)) == Some(reg[k].Key())
  {
    WinnerIsFirstHit(reg, url, post, |reg|);
  }

  const DirectMessagesSentUrl := "/direct_messages/sent.json"

  /** The url has no `u`, so none of the `statuses/...` entries matches it. */
  lemma DirectMessagesSentMissesStatuses()
    ensures forall j :: 0 <= j < 11 ==> !Hit(Registry, j, DirectMessagesSentUrl, false)
  {
    var url := DirectMessagesSentUrl;
    StatusesEntries();
    assert forall m :: 0 <= m < |url| ==> Fold(url[m]) != 'u';
    NoPrefixHit(Registry, 11, "statu", 4, url, false);
  }

  /** The url has no `h`, so `search/tweets` does not match it. */
  lemma DirectMessagesSentMissesSearch()
    ensures !Hit(Registry, 11, DirectMessagesSentUrl, false)
  {
    var url := DirectMessagesSentUrl;
    SearchEntry();
    assert forall m :: 0 <= m < |url| ==> Fold(url[m]) != 'h';
    MissingLetter("search/tweets", "search", "/tweets", 5, url);
  }

  lemma DirectMessagesSentMisses()
    ensures forall j :: 0 <= j < 12 ==> !Hit(Registry, j, DirectMessagesSentUrl, false)
  {
    DirectMessagesSentMissesStatuses();
    DirectMessagesSentMissesSearch();
    forall j | 0 <= j < 12 ensures !Hit(Registry, j, DirectMessagesSentUrl, false) {
      if j == 11 {
      }
    }
  }

  lemma DirectMessagesSentTest()
    ensures Test(Compile("direct_messages"), DirectMessagesSentUrl)
  {
    var url := DirectMessagesSentUrl;
    assert NoDoubleSlash("direct_messages");
    assert forall j :: 0 <= j < 15 ==> Fold(url[1 + j]) == Fold("direct_messages"[j]);
    PlainPathMatchesAt("direct_messages", url, 1);
    CompileCorrect("direct_messages", url, 1);
  }

  lemma DirectMessagesSentHit()
    ensures Hit(Registry, 12, DirectMessagesSentUrl, false)
  {
    DirectMessagesHead();
    DirectMessagesSentTest();
  }

  /**
   * `/direct_messages/sent.json` is filed under `GET direct_messages`, which comes
   * first, and not under `GET direct_messages/sent`.
   */
  lemma DirectMessagesSentExample()
    ensures ResourceOf(DirectMessagesSentUrl, false) == Some("GET direct_messages")
  {
    DirectMessagesSentMisses();
    DirectMessagesSentHit();
    FirstHit(Registry, 12, DirectMessagesSentUrl, false);
    DirectMessagesKey();
  }
}

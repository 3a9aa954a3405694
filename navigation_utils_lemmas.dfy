/**
 * Properties of the URL matcher: slash-insensitivity of matching, what a
 * route consumes, the separators `concatenateUrls` produces, `isSameUrl` as an
 * equivalence, and the keys `getUrlParameters` fills in.
 */
module NavigationUtilsLemmas {
  import opened NavigationUtils

  // ---------------------------------------------------------------- isMatchingUrl

  /** A string pattern matches exactly when the slash-prefixed URL extends the slash-prefixed pattern. */
  lemma LiteralMatchIsPrefixMatch(url: string, p: string)
    ensures IsMatchingUrl(url, Literal(p)) <==>
            exists rest :: WithLeadingSlash(url) == WithLeadingSlash(p) + rest
  {
    var u, q := WithLeadingSlash(url), WithLeadingSlash(p);
    if IsMatchingUrl(url, Literal(p)) {
      assert u == q + u[|q|..];
    }
  }

  /** It is a prefix match, not an exact one: whatever follows a matching URL still matches. */
  lemma LiteralMatchExtends(url: string, extra: string, p: string)
    requires IsMatchingUrl(url, Literal(p))
    ensures IsMatchingUrl(url + extra, Literal(p))
  {
    var q := WithLeadingSlash(p);
    var u := WithLeadingSlash(url);
    var v := WithLeadingSlash(url + extra);
    if url == "" {
      assert q == "/";
      assert v[..1] == "/";
    } else {
      assert v == u + extra by {
        if StartsWithSlash(url) {
          assert (url + extra)[0] == '/';
        } else {
          assert (url + extra)[0] != '/';
          assert "/" + (url + extra) == ("/" + url) + extra;
        }
      }
      assert v[..|q|] == u[..|q|];
    }
  }

  /** Adding a missing leading `/` to the URL never changes the answer, for any kind of pattern. */
  lemma MatchIgnoresUrlSlash(url: string, pattern: Pattern)
    requires !StartsWithSlash(url)
    ensures IsMatchingUrl("/" + url, pattern) == IsMatchingUrl(url, pattern)
  {
    assert ToggleLeadingSlash("/" + url) == url;
  }

  /** Adding a missing leading `/` to a string pattern never changes the answer. */
  lemma MatchIgnoresPatternSlash(url: string, p: string)
    requires !StartsWithSlash(p)
    ensures IsMatchingUrl(url, Literal("/" + p)) == IsMatchingUrl(url, Literal(p))
  {
  }

  /** `isMatchingUrl("/users/42", "users")` holds and `isMatchingUrl("/user", "users")` does not. */
  lemma MatchExamples()
    ensures IsMatchingUrl("/users/42", Literal("users"))
    ensures IsMatchingUrl("users", Literal("/users"))
    ensures !IsMatchingUrl("/user", Literal("users"))
  {
    assert WithLeadingSlash("/users/42")[..6] == "/users";
    assert WithLeadingSlash("users") == "/users";
  }

  // ---------------------------------------------------------------- consumeUrl

  /** A route found by matching can always consume: `consumeUrl` only throws for a RegExp that does not match. */
  lemma MatchingRouteConsumes(url: string, pattern: Pattern)
    requires IsMatchingUrl(url, pattern)
    ensures ConsumeUrl(url, pattern).Success?
  {
  }

  /** The consumed part and the remainder the next router level sees make up the URL again. */
  lemma ConsumedPlusRemainder(url: string, pattern: Pattern)
    requires ConsumeUrl(url, pattern).Success?
    ensures var c := ConsumeUrl(url, pattern).value;
            url == c + Suffix(url, |c|)
  {
  }

  /**
   * On a URL that starts with `/`, a matching string pattern consumes exactly
   * itself with a leading `/`, which is the same URL as the pattern.
   */
  lemma LiteralConsumesItself(url: string, p: string)
    requires StartsWithSlash(url) && p != ""
    requires IsMatchingUrl(url, Literal(p))
    ensures ConsumeUrl(url, Literal(p)) == Success(WithLeadingSlash(p))
    ensures IsSameUrl(Some(ConsumeUrl(url, Literal(p)).value), Some(p))
  {
    assert WithLeadingSlash(url) == url;
  }

  /** On a URL without the leading `/`, a string pattern claims one character more than its own text. */
  lemma UnrootedUrlConsumesOneMore()
    ensures ConsumeUrl("users/42", Literal("users")) == Success("users/")
    ensures ConsumeUrl("/users/42", Literal("users")) == Success("/users")
  {
    assert !StartsWithSlash("users");
    assert WithLeadingSlash("users") == "/users";
    assert "users/42"[..6] == "users/";
    assert "/users/42"[..6] == "/users";
  }

  /** A RegExp consumes the leading part of the URL as long as its full match (at most the whole URL). */
  lemma RegexConsumesMatchLength(url: string, exec: string -> Option<RegexMatch>)
    requires IsMatchingUrl(url, Regex(exec))
    ensures var m := MatchUrl(url, exec);
            m.Some? && ConsumeUrl(url, Regex(exec)) == Success(url[..Min(|url|, |m.value.matched|)])
  {
  }

  // ---------------------------------------------------------------- concatenateUrls

  /** A path segment with no `/` at either end. */
  predicate Bare(s: string)
  {
    s != "" && !StartsWithSlash(s) && !EndsWithSlash(s)
  }

  function Slash(present: bool): string { if present then "/" else "" }

  /** A segment made of `core` with or without a leading and a trailing `/`. */
  function Dressed(leading: bool, core: string, trailing: bool): string
  {
    Slash(leading) + core + Slash(trailing)
  }

  /** A segment without one leading and one trailing `/`, where it has them. */
  function Core(u: string): (r: string)
    ensures |r| <= |u|
  {
    var a := if StartsWithSlash(u) then u[1..] else u;
    if EndsWithSlash(a) then a[..|a| - 1] else a
  }

  /** The cores of the segments, in order. */
  function Cores(segments: seq<string>): (r: seq<string>)
    ensures |r| == |segments| && forall i :: 0 <= i < |r| ==> r[i] == Core(segments[i])
  {
    seq(|segments|, i requires 0 <= i < |segments| => Core(segments[i]))
  }

  /** A segment whose core is bare is that core with its own boundary slashes put back. */
  lemma CoreDressed(u: string)
    requires Bare(Core(u))
    ensures u == Dressed(StartsWithSlash(u), Core(u), EndsWithSlash(u))
  {
    var a := if StartsWithSlash(u) then u[1..] else u;
    assert a[|a| - 1] == u[|u| - 1];
    if StartsWithSlash(u) {
      assert u == "/" + a;
    }
    if EndsWithSlash(a) {
      assert a == a[..|a| - 1] + "/";
    }
  }

  /**
   * `filter` keeps the truthy arguments' values in order: the kept segments
   * of two argument lists one after the other are those of the first, then
   * those of the second.
   */
  lemma {:induction false} KeptSegmentsAppend(a: seq<Option<string>>, b: seq<Option<string>>)
    ensures KeptSegments(a + b) == KeptSegments(a) + KeptSegments(b)
  {
    if a == [] {
      assert a + b == b;
    } else {
      assert (a + b)[1..] == a[1..] + b;
      KeptSegmentsAppend(a[1..], b);
    }
  }

  /** A single argument is kept, as its value, exactly when it is truthy. */
  lemma KeptSegmentsSingle(u: Option<string>)
    ensures KeptSegments([u]) == if TruthySegment(u) then [u.value] else []
  {
    assert [u][1..] == [];
  }

  /**
   * Truthy arguments with bare cores, falsy arguments anywhere between them:
   * `concatenateUrls` joins the cores of the kept segments with exactly one
   * `/` between neighbours. It keeps the first kept segment's leading `/`,
   * and the last one's trailing `/` only when no argument was dropped.
   */
  lemma {:induction false} ConcatenateOneSlashBetween(urls: seq<Option<string>>)
    requires forall i :: 0 <= i < |urls| && TruthySegment(urls[i]) ==> Bare(Core(urls[i].value))
    requires exists i :: 0 <= i < |urls| && TruthySegment(urls[i])
    ensures var kept := KeptSegments(urls);
            var allKept := forall i :: 0 <= i < |urls| ==> TruthySegment(urls[i]);
            ConcatenateUrls(urls)
              == Slash(StartsWithSlash(kept[0])) + Join(Cores(kept), "/")
                 + (if allKept then Slash(EndsWithSlash(kept[|kept| - 1])) else "")
  {
    var kept := KeptSegments(urls);
    var n, m := |urls|, |kept|;
    assert m > 0;
    KeptCoresBare(urls);
    var tail := if m == n then Slash(EndsWithSlash(kept[m - 1])) else "";
    ConcatenateKept(urls, kept, tail);
  }

  lemma {:induction false} ConcatenateKept(urls: seq<Option<string>>, kept: seq<string>, tail: string)
    requires kept == KeptSegments(urls) && 0 < |kept| <= |urls|
    requires forall j :: 0 <= j < |kept| ==> Bare(Core(kept[j]))
    requires tail == if |kept| == |urls| then Slash(EndsWithSlash(kept[|kept| - 1])) else ""
    ensures ConcatenateUrls(urls) == Slash(StartsWithSlash(kept[0])) + Join(Cores(kept), "/") + tail
  {
    TrimmedKept(kept, |urls|, Slash(StartsWithSlash(kept[0])), tail);
  }

  /**
   * The pieces `concatenateUrls` joins are the kept cores, with `head` on
   * the first and `tail` on the last, so they join to the joined cores
   * between `head` and `tail`.
   */
  lemma {:induction false} TrimmedKept(kept: seq<string>, n: nat, head: string, tail: string)
    requires 0 < |kept| <= n && forall j :: 0 <= j < |kept| ==> Bare(Core(kept[j]))
    requires head == Slash(StartsWithSlash(kept[0]))
    requires tail == if |kept| == n then Slash(EndsWithSlash(kept[|kept| - 1])) else ""
    ensures Join(Trimmed(kept, n), "/") == head + Join(Cores(kept), "/") + tail
  {
    var m := |kept|;
    var pieces := Trimmed(kept, n);
    var cores := Cores(kept);
    forall j | 0 <= j < m
      ensures pieces[j] == (if j == 0 then head else "") + cores[j] + (if j == m - 1 then tail else "")
    {
      TrimKept(kept[j], j, m, n);
    }
    JoinWithEnds(pieces, cores, head, tail);
  }

  lemma {:induction false} KeptCoresBare(urls: seq<Option<string>>)
    requires forall i :: 0 <= i < |urls| && TruthySegment(urls[i]) ==> Bare(Core(urls[i].value))
    ensures var kept := KeptSegments(urls);
            forall j :: 0 <= j < |kept| ==> Bare(Core(kept[j]))
  {
    var kept := KeptSegments(urls);
    forall j | 0 <= j < |kept|
      ensures Bare(Core(kept[j]))
    {
      KeptBare(urls, j);
    }
  }

  /** Every kept segment is a truthy argument, so its core is bare when every truthy argument's is. */
  lemma {:induction false} KeptBare(urls: seq<Option<string>>, j: nat)
    requires forall i :: 0 <= i < |urls| && TruthySegment(urls[i]) ==> Bare(Core(urls[i].value))
    requires j < |KeptSegments(urls)|
    ensures Bare(Core(KeptSegments(urls)[j]))
  {
    var u := KeptSegments(urls)[j];
    assert Some(u) in urls;
    var i :| 0 <= i < |urls| && urls[i] == Some(u);
    assert TruthySegment(urls[i]);
  }

  /**
   * The kept segment at index `j` of `m`, out of `n` arguments: it keeps its
   * leading `/` only at index 0 and its trailing `/` only as the last kept
   * segment when no argument was dropped.
   */
  lemma TrimKept(u: string, j: nat, m: nat, n: nat)
    requires Bare(Core(u)) && j < m <= n
    ensures TrimSegment(u, j, n)
            == (if j == 0 then Slash(StartsWithSlash(u)) else "") + Core(u)
               + (if j == m - 1 then (if m == n then Slash(EndsWithSlash(u)) else "") else "")
  {
    CoreDressed(u);
    TrimDressed(StartsWithSlash(u), Core(u), EndsWithSlash(u), j, n);
  }

  /**
   * Pieces that are the cores, the first with `head` in front and the last
   * with `tail` behind, join to the joined cores between `head` and `tail`.
   */
  lemma {:induction false} JoinWithEnds(pieces: seq<string>, cores: seq<string>, head: string, tail: string)
    requires |cores| > 0 && |pieces| == |cores|
    requires forall i :: 0 <= i < |cores| ==>
               pieces[i] == (if i == 0 then head else "") + cores[i] + (if i == |cores| - 1 then tail else "")
    ensures Join(pieces, "/") == head + Join(cores, "/") + tail
  {
    if |cores| == 1 {
      assert pieces[0] == head + cores[0] + tail;
    } else {
      var rest, restCores := pieces[1..], cores[1..];
      forall i | 0 <= i < |restCores|
        ensures rest[i] == "" + restCores[i] + (if i == |restCores| - 1 then tail else "")
      {
        assert rest[i] == pieces[i + 1];
      }
      JoinWithEnds(rest, restCores, "", tail);
      var joinedRest := Join(restCores, "/");
      assert pieces[0] == head + cores[0] + "";
      calc {
        Join(pieces, "/");
        pieces[0] + "/" + Join(rest, "/");
        (head + cores[0]) + "/" + ("" + joinedRest + tail);
        head + (cores[0] + "/" + joinedRest) + tail;
        head + Join(cores, "/") + tail;
      }
    }
  }

  lemma TrimDressed(leading: bool, core: string, trailing: bool, index: nat, count: nat)
    requires Bare(core) && index < count
    ensures var t := TrimSegment(Dressed(leading, core, trailing), index, count);
            t == (if index == 0 then Slash(leading) else "") + core + (if index == count - 1 then Slash(trailing) else "")
  {
    var d := Dressed(leading, core, trailing);
    var head := if index == 0 then Slash(leading) else "";
    var u := if index > 0 && StartsWithSlash(d) then d[1..] else d;
    assert u == head + core + Slash(trailing) by {
      if index > 0 && leading {
        assert d == "/" + (core + Slash(trailing));
      } else if index > 0 {
        assert d == core + Slash(trailing) && d[0] == core[0];
      }
    }
    var bare := head + core;
    assert bare[|bare| - 1] == core[|core| - 1];
    if trailing {
      assert u == bare + "/" && u[..|u| - 1] == bare;
    } else {
      assert u == bare && !EndsWithSlash(u);
    }
  }

  /**
   * A lone `/` that is not at the last argument's index loses its trailing
   * `/` and so vanishes: `concatenateUrls("/", null)` and
   * `concatenateUrls("", "/")` are both `""`, while `concatenateUrls("/")`
   * is `"/"`.
   */
  lemma ConcatenateLoneSlashVanishes()
    ensures ConcatenateUrls([Some("/"), None]) == ""
    ensures ConcatenateUrls([Some(""), Some("/")]) == ""
    ensures ConcatenateUrls([Some("/")]) == "/"
  {
    assert KeptSegments([Some("/"), None]) == ["/"];
    assert KeptSegments([Some(""), Some("/")]) == ["/"];
    assert KeptSegments([Some("/")]) == ["/"];
    assert TrimSegment("/", 0, 2) == "";
    assert TrimSegment("/", 0, 1) == "/";
  }

  /** `concatenateUrls("/a/", "/b")` is `"/a/b"`; an argument list with no truthy argument gives `""`. */
  lemma ConcatenateExamples()
    ensures ConcatenateUrls([Some("/a/"), Some("/b")]) == "/a/b"
    ensures ConcatenateUrls([None, Some(""), None]) == ""
  {
    assert KeptSegments([Some("/a/"), Some("/b")]) == ["/a/", "/b"];
    assert "/a/"[..2] == "/a";
    assert "/b"[1..] == "b";
    assert TrimSegment("/a/", 0, 2) == "/a";
    assert TrimSegment("/b", 1, 2) == "b";
    assert Trimmed(["/a/", "/b"], 2) == ["/a", "b"];
    assert Join(["/a", "b"], "/") == "/a" + "/" + "b";
  }

  /**
   * The trailing `/` is compared with the original argument count, so once an
   * argument has been dropped even the last kept segment loses it.
   */
  lemma ConcatenateDroppedArgumentStripsTrailingSlash()
    ensures ConcatenateUrls([Some("/a/"), None]) == "/a"
    ensures ConcatenateUrls([Some("/a/")]) == "/a/"
  {
    assert KeptSegments([Some("/a/"), None]) == ["/a/"];
    assert KeptSegments([Some("/a/")]) == ["/a/"];
    assert "/a/"[..2] == "/a";
    assert TrimSegment("/a/", 0, 2) == "/a";
    assert Trimmed(["/a/"], 2) == ["/a"];
    assert Trimmed(["/a/"], 1) == ["/a/"];
  }

  /**
   * Behind an empty base URL a segment comes out as it is, except that it
   * loses a trailing `/`: it is not at the index of the last argument.
   */
  lemma ConcatenateAfterEmptyBase(u: string)
    requires u != ""
    ensures ConcatenateUrls([Some(""), Some(u)]) == if EndsWithSlash(u) then u[..|u| - 1] else u
  {
    assert KeptSegments([Some(""), Some(u)]) == [u] by {
      assert [Some(""), Some(u)][1..] == [Some(u)];
      assert KeptSegments([Some(u)]) == [u] + KeptSegments([]);
    }
    assert Trimmed([u], 2) == [TrimSegment(u, 0, 2)];
  }

  // ---------------------------------------------------------------- isSameUrl

  lemma SameUrlReflexive(url: string)
    ensures IsSameUrl(Some(url), Some(url))
  {
  }

  lemma SameUrlSymmetric(a: Option<string>, b: Option<string>)
    ensures IsSameUrl(a, b) == IsSameUrl(b, a)
  {
  }

  lemma SameUrlTransitive(a: Option<string>, b: Option<string>, c: Option<string>)
    requires IsSameUrl(a, b) && IsSameUrl(b, c)
    ensures IsSameUrl(a, c)
  {
  }

  /** Anything that is not a string is the same URL as nothing, itself included. */
  lemma SameUrlNeedsStrings(a: Option<string>, b: Option<string>)
    requires a.None? || b.None?
    ensures !IsSameUrl(a, b)
  {
  }

  /** A missing leading or trailing `/` makes no difference. */
  lemma SameUrlIgnoresBoundarySlashes(core: string, leading: bool, trailing: bool)
    requires Bare(core)
    ensures IsSameUrl(Some(Dressed(leading, core, trailing)), Some(core))
  {
    var target := "/" + core + "/";
    BareNormalised(core);
    var d := Dressed(leading, core, trailing);
    if leading && trailing {
      assert d == target;
    } else if leading {
      assert d == "/" + core;
      assert d[|d| - 1] == core[|core| - 1];
    } else if trailing {
      assert d == core + "/";
      assert d[0] == core[0];
      assert WithLeadingSlash(d) == target;
    } else {
      assert d == core;
    }
  }

  lemma BareNormalised(core: string)
    requires Bare(core)
    ensures SlashNormalised(core) == "/" + core + "/"
  {
    var w := "/" + core;
    assert w[|w| - 1] == core[|core| - 1];
  }

  /** Between URLs with no boundary slashes, `isSameUrl` is plain equality. */
  lemma SameUrlOfBareIsEquality(a: string, b: string)
    requires Bare(a) && Bare(b)
    ensures IsSameUrl(Some(a), Some(b)) <==> a == b
  {
    BareNormalised(a);
    BareNormalised(b);
    if IsSameUrl(Some(a), Some(b)) {
      assert a == ("/" + a + "/")[1..|a| + 1];
      assert b == ("/" + b + "/")[1..|b| + 1];
    }
  }

  /** `isSameUrl("users", "/users/")` is true, `isSameUrl("users", "/user")` false. */
  lemma SameUrlExamples()
    ensures IsSameUrl(Some("users"), Some("/users/"))
    ensures !IsSameUrl(Some("users"), Some("/user"))
    ensures IsSameUrl(Some(""), Some("/"))
  {
    SameUrlIgnoresBoundarySlashes("users", true, true);
    assert SlashNormalised("users") == "/users/";
    assert SlashNormalised("/user") == "/user/";
  }

  // ---------------------------------------------------------------- getUrlParameters

  lemma {:induction false} NatToStringInjective(a: nat, b: nat)
    requires NatToString(a) == NatToString(b)
    ensures a == b
  {
    if a >= 10 && b >= 10 {
      var sa, sb := NatToString(a), NatToString(b);
      assert sa[..|sa| - 1] == NatToString(a / 10);
      assert sb[..|sb| - 1] == NatToString(b / 10);
      NatToStringInjective(a / 10, b / 10);
      DigitCharInjective(a % 10, b % 10);
    } else if a < 10 && b < 10 {
      DigitCharInjective(a, b);
    }
  }

  lemma DigitCharInjective(a: nat, b: nat)
    requires a < 10 && b < 10 && DigitChar(a) == DigitChar(b)
    ensures a == b
  {
  }

  /** `{...urlParams}` puts the capture at position `i` under the key `String(i)`. */
  lemma {:induction false} IndexedCaptureAt(captures: seq<Value>, i: nat)
    requires i < |captures|
    ensures NatToString(i) in IndexedCaptures(captures)
    ensures IndexedCaptures(captures)[NatToString(i)] == captures[i]
  {
    var n := |captures| - 1;
    if i < n {
      IndexedCaptureAt(captures[..n], i);
      if NatToString(i) == NatToString(n) {
        NatToStringInjective(i, n);
      }
    }
  }

  /**
   * Without `urlParameterNames`, the captures appear both under their
   * positions and as the array `urlParameters`; static parameters whose key
   * is neither survive unchanged.
   */
  lemma SpreadParameters(url: string, pattern: Pattern, parameters: map<string, Value>, k: string, i: nat)
    requires ParameterNames(parameters).None?
    ensures var captures := Captures(url, pattern);
            var r := UrlParameters(url, pattern, parameters);
            && r[CapturesKey] == Array(captures)
            && (i < |captures| ==> r[NatToString(i)] == captures[i])
            && (k in parameters && k != CapturesKey && k !in IndexedCaptures(captures) ==> r[k] == parameters[k])
  {
    var captures := Captures(url, pattern);
    if i < |captures| {
      IndexedCaptureAt(captures, i);
      assert NatToString(i)[0] != 'u';
    }
  }

  /** A string pattern captures nothing, so its parameters are the static ones plus an empty `urlParameters`. */
  lemma LiteralPatternParameters(url: string, p: string, parameters: map<string, Value>)
    requires ParameterNames(parameters).None?
    ensures UrlParameters(url, Literal(p), parameters) == parameters[CapturesKey := Array([])]
  {
  }

  /**
   * The fold binds every name to the capture at its LAST position, keeps every
   * other static parameter and adds no other key.
   */
  lemma {:induction false} BoundNamesMeaning(parameters: map<string, Value>, names: seq<string>, captures: seq<Value>)
    ensures var r := BoundNames(parameters, names, captures);
            && (forall k :: k in r <==> k in parameters || k in names)
            && (forall k :: k in names ==> r[k] == CaptureAt(captures, LastIndex(names, k)))
            && (forall k :: k in parameters && k !in names ==> r[k] == parameters[k])
  {
    if names != [] {
      var n := |names| - 1;
      BoundNamesMeaning(parameters, names[..n], captures);
      assert names == names[..n] + [names[n]];
      forall k | k in names && k != names[n]
        ensures k in names[..n] && LastIndex(names, k) == LastIndex(names[..n], k)
      {
      }
    }
  }

  /**
   * With an array `urlParameterNames`, `getUrlParameters` binds each name to the
   * capture at its position (the last one for a repeated name; undefined past
   * the captures), overrides static parameters of the same name, keeps the
   * others and leaves out `urlParameterNames` itself.
   */
  lemma NamedParameters(url: string, pattern: Pattern, parameters: map<string, Value>)
    requires ParameterNames(parameters).Some?
    ensures var names := ParameterNames(parameters).value;
            var r := UrlParameters(url, pattern, parameters);
            && (forall k :: k in r <==> (k in parameters || k in names) && k != ParameterNamesKey)
            && (forall k :: k in names && k != ParameterNamesKey ==>
                  r[k] == CaptureAt(Captures(url, pattern), LastIndex(names, k)))
            && (forall k :: k in parameters && k !in names && k != ParameterNamesKey ==> r[k] == parameters[k])
  {
    BoundNamesMeaning(parameters, ParameterNames(parameters).value, Captures(url, pattern));
  }

  /** A string pattern binds every declared name to undefined. */
  lemma LiteralPatternCapturesNothing(url: string, p: string, i: nat)
    ensures CaptureAt(Captures(url, Literal(p)), i) == Undefined
  {
  }
}

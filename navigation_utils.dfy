/**
 * The URL matcher of the router: stateless operations on URL strings.
 * Every URL is a `string`; regular-expression patterns are abstract matchers.
 */
module NavigationUtils {

  datatype Option<+T> = None | Some(value: T)

  /** The outcome of an operation that may throw. */
  datatype Result<+T> = Success(value: T) | Failure(message: string)

  /**
   * The JavaScript values the router inspects or copies: route parameters,
   * captured groups and the entries of `urlParameterNames`.
   */
  datatype Value = Undefined | Text(s: string) | Flag(b: bool) | Num(n: int) | Array(items: seq<Value>)

  /** JavaScript truthiness of a value. */
  predicate Truthy(v: Value)
  {
    match v
    case Undefined => false
    case Text(s) => s != ""
    case Flag(b) => b
    case Num(n) => n != 0
    case Array(_) => true
  }

  /** What `String.prototype.match` yields for a non-global RegExp: the full match and the groups. */
  datatype RegexMatch = RegexMatch(matched: string, groups: seq<Value>)

  /**
   * A route's URL pattern: a literal string, a RegExp given by its matcher
   * (`exec(s)` is `s.match(re)`; `re.test(s)` holds exactly when it is `Some`),
   * or no pattern at all (undefined or null).
   */
  datatype Pattern = Literal(text: string) | Regex(exec: string -> Option<RegexMatch>) | Absent

  // ---------------------------------------------------------------- string helpers

  predicate StartsWithSlash(s: string) { |s| > 0 && s[0] == '/' }

  predicate EndsWithSlash(s: string) { |s| > 0 && s[|s| - 1] == '/' }

  /** `s.startsWith(prefix)` */
  predicate StartsWith(s: string, prefix: string)
  {
    |prefix| <= |s| && s[..|prefix|] == prefix
  }

  /** `s.substring(0, n)`, which stops at the end of `s`. */
  function Prefix(s: string, n: nat): (r: string)
    ensures |r| == if n <= |s| then n else |s|
    ensures StartsWith(s, r)
  {
    if n <= |s| then s[..n] else s
  }

  /** `s.substring(n)`, which is empty once `n` passes the end of `s`. */
  function Suffix(s: string, n: nat): (r: string)
    ensures n <= |s| ==> s == s[..n] + r
    ensures n >= |s| ==> r == ""
  {
    if n <= |s| then s[n..] else ""
  }

  /** Adds a leading `/` when it is missing. */
  function WithLeadingSlash(s: string): (r: string)
    ensures StartsWithSlash(r)
    ensures StartsWithSlash(s) ==> r == s
    ensures !StartsWithSlash(s) ==> r == "/" + s
  {
    if StartsWithSlash(s) then s else "/" + s
  }

  /** Removes the leading `/` if there is one, adds one otherwise. */
  function ToggleLeadingSlash(s: string): (r: string)
    ensures StartsWithSlash(s) ==> "/" + r == s
    ensures !StartsWithSlash(s) ==> r == "/" + s
  {
    if StartsWithSlash(s) then s[1..] else "/" + s
  }

  // ---------------------------------------------------------------- isMatchingUrl, matchUrl

  /**
   * `isMatchingUrl(url, pattern)`: a RegExp is tried on `url` and on its
   * slash-toggled variant; a string pattern is a prefix match once both sides
   * carry a leading `/`; anything else is not a match.
   */
  predicate IsMatchingUrl(url: string, pattern: Pattern)
    ensures pattern.Absent? ==> !IsMatchingUrl(url, pattern)
    ensures pattern == Literal("") || pattern == Literal("/") ==> IsMatchingUrl(url, pattern)
  {
    match pattern
    case Regex(exec) => exec(url).Some? || exec(ToggleLeadingSlash(url)).Some?
    case Literal(p) => StartsWith(WithLeadingSlash(url), WithLeadingSlash(p))
    case Absent => false
  }

  /** `matchUrl(url, pattern)`: the match of `url`, or else of its slash-toggled variant. */
  function MatchUrl(url: string, exec: string -> Option<RegexMatch>): (r: Option<RegexMatch>)
    ensures r.Some? <==> IsMatchingUrl(url, Regex(exec))
    ensures exec(url).Some? ==> r == exec(url)
    ensures exec(url).None? ==> r == exec(ToggleLeadingSlash(url))
  {
    match exec(url)
    case Some(m) => Some(m)
    case None => exec(ToggleLeadingSlash(url))
  }

  /** A pattern JavaScript treats as false in `!pattern`: no pattern, or the empty string. */
  predicate FalsyPattern(pattern: Pattern)
  {
    pattern.Absent? || pattern == Literal("")
  }

  // ---------------------------------------------------------------- consumeUrl

  /**
   * `consumeUrl(url, pattern)`: the prefix of `url` (as given) that the pattern
   * claims. It fails, as the source throws, when a RegExp matches neither `url`
   * nor its slash-toggled variant.
   */
  function ConsumeUrl(url: string, pattern: Pattern): (r: Result<string>)
    ensures r.Success? ==> StartsWith(url, r.value)
    ensures r.Failure? <==> pattern.Regex? && !IsMatchingUrl(url, pattern)
    ensures FalsyPattern(pattern) ==> r == Success("")
    ensures pattern.Literal? && pattern.text != "" ==>
      r.Success? && |r.value| == Min(|url|, |WithLeadingSlash(pattern.text)|)
  {
    match pattern
    case Absent => Success("")
    case Literal(p) =>
      if p == "" then Success("") else Success(Prefix(url, |WithLeadingSlash(p)|))
    case Regex(exec) =>
      match MatchUrl(url, exec)
      case None => Failure("Cannot consume url that does not match pattern")
      case Some(m) => Success(Prefix(url, |m.matched|))
  }

  function Min(a: nat, b: nat): nat { if a <= b then a else b }

  // ---------------------------------------------------------------- concatenateUrls

  /** A URL argument of `concatenateUrls`: `None` stands for null or undefined. */
  predicate TruthySegment(u: Option<string>)
  {
    u.Some? && u.value != ""
  }

  /** `urls.filter(url => !!url)`: the kept segments, in order. */
  function KeptSegments(urls: seq<Option<string>>): (r: seq<string>)
    ensures |r| <= |urls|
    ensures forall i :: 0 <= i < |r| ==> r[i] != ""
    ensures |r| == |urls| <==> forall i :: 0 <= i < |urls| ==> TruthySegment(urls[i])
    ensures r == [] <==> forall i :: 0 <= i < |urls| ==> !TruthySegment(urls[i])
    ensures forall i :: 0 <= i < |r| ==> Some(r[i]) in urls
  {
    if urls == [] then []
    else if TruthySegment(urls[0]) then [urls[0].value] + KeptSegments(urls[1..])
    else KeptSegments(urls[1..])
  }

  /**
   * The per-segment step of `concatenateUrls`: the kept segment at (filtered)
   * `index` loses a leading `/` unless it is the first, then loses a trailing
   * `/` unless `index` is the index of the last ARGUMENT.
   */
  function TrimSegment(url: string, index: nat, argumentCount: nat): (r: string)
    ensures |url| - 2 <= |r| <= |url|
    ensures index == 0 ==> StartsWith(url, r)
    ensures index == 0 && index == argumentCount - 1 ==> r == url
    ensures index != argumentCount - 1 ==> !EndsWithSlash(r) || r == "/" || (|url| >= 2 && url[|url| - 2..] == "//")
  {
    var u := if index > 0 && StartsWithSlash(url) then url[1..] else url;
    if index != argumentCount - 1 && EndsWithSlash(u) then u[..|u| - 1] else u
  }

  /** `pieces.join(separator)` */
  function Join(pieces: seq<string>, separator: string): (r: string)
    ensures pieces == [] ==> r == ""
    ensures |pieces| == 1 ==> r == pieces[0]
    ensures |pieces| > 0 ==> StartsWith(r, pieces[0])
  {
    if pieces == [] then ""
    else if |pieces| == 1 then pieces[0]
    else pieces[0] + separator + Join(pieces[1..], separator)
  }

  /** `concatenateUrls(...urls)` */
  function ConcatenateUrls(urls: seq<Option<string>>): (r: string)
    ensures (forall i :: 0 <= i < |urls| ==> !TruthySegment(urls[i])) ==> r == ""
  {
    Join(Trimmed(KeptSegments(urls), |urls|), "/")
  }

  /** `.map((url, index) => ...)`: every kept segment trimmed according to its position. */
  function Trimmed(kept: seq<string>, argumentCount: nat): (r: seq<string>)
    ensures |r| == |kept|
    ensures forall i :: 0 <= i < |r| ==> r[i] == TrimSegment(kept[i], i, argumentCount)
  {
    seq(|kept|, i requires 0 <= i < |kept| => TrimSegment(kept[i], i, argumentCount))
  }

  // ---------------------------------------------------------------- isSameUrl

  /** Adds a missing leading `/`, then a missing trailing `/`. */
  function SlashNormalised(s: string): (r: string)
    ensures StartsWithSlash(r) && EndsWithSlash(r)
  {
    var t := WithLeadingSlash(s);
    if EndsWithSlash(t) then t else t + "/"
  }

  /** `isSameUrl(url1, url2)`: `None` stands for any value that is not a string. */
  predicate IsSameUrl(url1: Option<string>, url2: Option<string>)
    ensures IsSameUrl(url1, url2) ==> url1.Some? && url2.Some?
    ensures url1.Some? && url1 == url2 ==> IsSameUrl(url1, url2)
  {
    url1.Some? && url2.Some? && SlashNormalised(url1.value) == SlashNormalised(url2.value)
  }

  // ---------------------------------------------------------------- getUrlParameters

  /** The decimal digits of `n`, as `String(n)` writes them. */
  function NatToString(n: nat): (r: string)
    ensures |r| > 0
    ensures forall i :: 0 <= i < |r| ==> '0' <= r[i] <= '9'
  {
    if n < 10 then [DigitChar(n)] else NatToString(n / 10) + [DigitChar(n % 10)]
  }

  function DigitChar(d: nat): (c: char)
    requires d < 10
    ensures '0' <= c <= '9'
  {
    "0123456789"[d]
  }

  function IntToString(n: int): string
  {
    if n < 0 then "-" + NatToString(-n) else NatToString(n)
  }

  /** The property key JavaScript uses for a value in `params[name]` (`String(name)`). */
  function PropertyKey(v: Value): (r: string)
    ensures v.Text? ==> r == v.s
    ensures v.Num? ==> r != "" && (v.n < 0 <==> r[0] == '-')
    ensures v.Num? && v.n >= 0 ==> forall i :: 0 <= i < |r| ==> '0' <= r[i] <= '9'
    ensures v.Num? && v.n < 0 ==> |r| >= 2 && forall i :: 1 <= i < |r| ==> '0' <= r[i] <= '9'
    ensures v.Array? && v.items == [] ==> r == ""
  {
    match v
    case Undefined => "undefined"
    case Text(s) => s
    case Flag(b) => if b then "true" else "false"
    case Num(n) => IntToString(n)
    case Array(items) =>
      // Array.prototype.toString: elements joined with ",", undefined ones written as "".
      Join(seq(|items|, i requires 0 <= i < |items| =>
                           if items[i].Undefined? then "" else PropertyKey(items[i])), ",")
  }

  /** The groups `url.match(pattern)` captures: none for a string pattern or a failed match. */
  function Captures(url: string, pattern: Pattern): (r: seq<Value>)
    ensures !pattern.Regex? ==> r == []
  {
    match pattern
    case Regex(exec) => (match exec(url) case Some(m) => m.groups case None => [])
    case _ => []
  }

  /** `urlParams[index]`, undefined past the end. */
  function CaptureAt(captures: seq<Value>, index: nat): Value
  {
    if index < |captures| then captures[index] else Undefined
  }

  /** `{...urlParams}`: the captures under the keys "0", "1", ... */
  function IndexedCaptures(captures: seq<Value>): (r: map<string, Value>)
    ensures r.Keys == set i | 0 <= i < |captures| :: NatToString(i)
  {
    if captures == [] then map[]
    else
      var n := |captures| - 1;
      assert (set i | 0 <= i < n + 1 :: NatToString(i)) == (set i | 0 <= i < n :: NatToString(i)) + {NatToString(n)};
      IndexedCaptures(captures[..n])[NatToString(n) := captures[n]]
  }

  const ParameterNamesKey := "urlParameterNames"
  const CapturesKey := "urlParameters"

  /** The names in `parameters.urlParameterNames` as property keys, when it is an array. */
  function ParameterNames(parameters: map<string, Value>): Option<seq<string>>
  {
    if ParameterNamesKey in parameters && parameters[ParameterNamesKey].Array? then
      var items := parameters[ParameterNamesKey].items;
      Some(seq(|items|, i requires 0 <= i < |items| => PropertyKey(items[i])))
    else None
  }

  /** The position of the last occurrence of `k` in `s`. */
  function LastIndex(s: seq<string>, k: string): (r: nat)
    requires k in s
    ensures r < |s| && s[r] == k && k !in s[r + 1..]
  {
    if s[|s| - 1] == k then |s| - 1
    else
      assert s == s[..|s| - 1] + [s[|s| - 1]];
      LastIndex(s[..|s| - 1], k)
  }

  /**
   * The `forEach` of `getUrlParameters` as a fold: `params[names[i]] = urlParams[i]`
   * for each position in turn, starting from a copy of `parameters`.
   */
  function BoundNames(parameters: map<string, Value>, names: seq<string>, captures: seq<Value>): (r: map<string, Value>)
    ensures forall k :: k in r <==> k in parameters || k in names
    ensures forall k :: k in parameters && k !in names ==> r[k] == parameters[k]
  {
    if names == [] then parameters
    else
      var n := |names| - 1;
      BoundNames(parameters, names[..n], captures)[names[n] := CaptureAt(captures, n)]
  }

  /** One more `forEach` step binds the next name to its capture. */
  lemma BoundNamesStep(parameters: map<string, Value>, names: seq<string>, i: nat, captures: seq<Value>)
    requires i < |names|
    ensures BoundNames(parameters, names[..i + 1], captures)
            == BoundNames(parameters, names[..i], captures)[names[i] := CaptureAt(captures, i)]
  {
    assert names[..i + 1][..i] == names[..i];
  }

  /** The object `getUrlParameters(url, route)` returns, for the route's pattern and static parameters. */
  function UrlParameters(url: string, pattern: Pattern, parameters: map<string, Value>): (r: map<string, Value>)
    ensures ParameterNames(parameters).Some? ==> ParameterNamesKey !in r
    ensures ParameterNames(parameters).None? ==> CapturesKey in r && r[CapturesKey] == Array(Captures(url, pattern))
    ensures forall k :: k in parameters && k != ParameterNamesKey ==> k in r
  {
    var captures := Captures(url, pattern);
    match ParameterNames(parameters)
    case Some(names) => BoundNames(parameters, names, captures) - {ParameterNamesKey}
    case None => parameters + IndexedCaptures(captures) + map[CapturesKey := Array(captures)]
  }

  /**
   * `getUrlParameters(url, route)`: copies the static parameters, assigns the
   * named captures one by one and deletes `urlParameterNames`, or spreads the
   * captures when no names are declared.
   */
  method GetUrlParameters(url: string, pattern: Pattern, parameters: map<string, Value>)
    returns (r: map<string, Value>)
    ensures r == UrlParameters(url, pattern, parameters)
  {
    var captures := Captures(url, pattern);
    var names := ParameterNames(parameters);
    if names.None? {
      return parameters + IndexedCaptures(captures) + map[CapturesKey := Array(captures)];
    }
    var ns := names.value;
    r := parameters;
    var i := 0;
    while i < |ns|
      invariant 0 <= i <= |ns|
      invariant r == BoundNames(parameters, ns[..i], captures)
    {
      BoundNamesStep(parameters, ns, i, captures);
      r := r[ns[i] := CaptureAt(captures, i)];
      i := i + 1;
    }
    assert ns[..i] == ns;
    r := r - {ParameterNamesKey};
  }
}

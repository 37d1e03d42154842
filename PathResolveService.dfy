/**
 * PathResolveService.ResolveUri: substitutes the escaped value of each named parameter
 * for its "{name}" placeholder, using a cache of parsed templates.
 */
module PathResolveService {
  import opened Wrappers
  import opened CaseFolding
  import opened RouteParser
  import UriEscaping

  /** One public property of the parameter object: its name and its value, None for null. */
  datatype Property = Property(name: string, value: Option<string>)

  /** Why a resolution fails. */
  datatype ResolveError =
    | MissingParameter(name: string)    // no property matches the placeholder: `First` throws
    | NullParameterValue(name: string)  // the matching property's value is null: `ToString` on null

  /** `First(x => EqualsName(x, name))`: the first property whose name matches, ignoring case. */
  function FindProperty(properties: seq<Property>, name: string): Option<Property>
  {
    if properties == [] then None
    else if EqualsIgnoreCase(properties[0].name, name) then Some(properties[0])
    else FindProperty(properties[1..], name)
  }

  /** The lookup finds the first property whose name matches, and finds nothing only when none matches. */
  lemma {:induction false} FindPropertyFirst(properties: seq<Property>, name: string)
    ensures FindProperty(properties, name).Some? ==>
              exists k :: 0 <= k < |properties| && properties[k] == FindProperty(properties, name).value
                          && EqualsIgnoreCase(properties[k].name, name)
                          && forall j :: 0 <= j < k ==> !EqualsIgnoreCase(properties[j].name, name)
    ensures FindProperty(properties, name).None? ==>
              forall k :: 0 <= k < |properties| ==> !EqualsIgnoreCase(properties[k].name, name)
  {
    if properties != [] && !EqualsIgnoreCase(properties[0].name, name) {
      var tail := properties[1..];
      FindPropertyFirst(tail, name);
      assert forall k :: 0 < k < |properties| ==> properties[k] == tail[k - 1];
      if FindProperty(tail, name).Some? {
        var k :| 0 <= k < |tail| && tail[k] == FindProperty(tail, name).value
          && EqualsIgnoreCase(tail[k].name, name)
          && forall j :: 0 <= j < k ==> !EqualsIgnoreCase(tail[j].name, name);
        assert properties[k + 1] == tail[k];
      }
    }
  }

  /** The text that replaces the placeholder `name`: the escaped value of its property. */
  function ParameterValue(properties: seq<Property>, name: string): Result<string, ResolveError>
  {
    match FindProperty(properties, name)
    case None => Err(MissingParameter(name))
    case Some(p) =>
      match p.value
      case None => Err(NullParameterValue(name))
      case Some(v) => Ok(UriEscaping.EscapeDataString(v))
  }

  /**
   * The replacement text of every placeholder, in template order; the first placeholder
   * that cannot be resolved decides the error.
   */
  function EscapedValues(ps: seq<RouteParam>, properties: seq<Property>): (r: Result<seq<string>, ResolveError>)
    ensures r.Ok? ==> |r.value| == |ps|
  {
    if ps == [] then Ok([])
    else
      match ParameterValue(properties, ps[0].paramName)
      case Err(e) => Err(e)
      case Ok(v) =>
        match EscapedValues(ps[1..], properties)
        case Err(e) => Err(e)
        case Ok(vs) => Ok([v] + vs)
  }

  /**
   * On success there is one value per placeholder, the value of its own property; on
   * failure the error is that of the first placeholder that cannot be resolved.
   */
  lemma {:induction false} EscapedValuesSpec(ps: seq<RouteParam>, properties: seq<Property>)
    ensures EscapedValues(ps, properties).Ok? ==>
              && |EscapedValues(ps, properties).value| == |ps|
              && forall k :: 0 <= k < |ps| ==>
                   ParameterValue(properties, ps[k].paramName) == Ok(EscapedValues(ps, properties).value[k])
    ensures EscapedValues(ps, properties).Err? ==>
              exists k :: 0 <= k < |ps|
                          && ParameterValue(properties, ps[k].paramName) == Err(EscapedValues(ps, properties).error)
                          && forall j :: 0 <= j < k ==> ParameterValue(properties, ps[j].paramName).Ok?
  {
    if ps != [] {
      var v := ParameterValue(properties, ps[0].paramName);
      if v.Err? {
        assert EscapedValues(ps, properties) == Err(v.error);
      } else {
        var tail := ps[1..];
        EscapedValuesSpec(tail, properties);
        var r := EscapedValues(tail, properties);
        if r.Err? {
          assert EscapedValues(ps, properties) == Err(r.error);
          var k :| 0 <= k < |tail|
            && ParameterValue(properties, tail[k].paramName) == Err(r.error)
            && forall j :: 0 <= j < k ==> ParameterValue(properties, tail[j].paramName).Ok?;
          assert ps[k + 1] == tail[k];
          forall j | 0 <= j < k + 1
            ensures ParameterValue(properties, ps[j].paramName).Ok?
          {
            if j > 0 {
              assert ps[j] == tail[j - 1];
            }
          }
        } else {
          var values := [v.value] + r.value;
          assert EscapedValues(ps, properties) == Ok(values);
          forall k | 0 <= k < |ps|
            ensures ParameterValue(properties, ps[k].paramName) == Ok(values[k])
          {
            if k > 0 {
              assert ps[k] == tail[k - 1] && values[k] == r.value[k - 1];
            }
          }
        }
      }
    }
  }

  /**
   * The output up to and including the `i`-th replacement: each literal slice of the
   * template followed by the value that replaces the placeholder after it.
   */
  function SpliceUpTo(path: string, ps: seq<RouteParam>, values: seq<string>, i: nat): string
    requires i <= |ps| && |values| == i && WellFormedFrom(path, ps, 0)
  {
    if i == 0 then ""
    else
      SpliceUpTo(path, ps, values[..i - 1], i - 1)
      + path[LiteralStart(ps, 0, i - 1)..ps[i - 1].startIndex] + values[i - 1]
  }

  /** The template with the `k`-th placeholder replaced by `values[k]`. */
  function Splice(path: string, ps: seq<RouteParam>, values: seq<string>): string
    requires |values| == |ps| && WellFormedFrom(path, ps, 0)
  {
    SpliceUpTo(path, ps, values, |ps|) + path[LiteralStart(ps, 0, |ps|)..]
  }

  /** The substitution of every placeholder, or the error of the first one that cannot be resolved. */
  function Substituted(path: string, ps: seq<RouteParam>, properties: seq<Property>): Result<string, ResolveError>
    requires WellFormedFrom(path, ps, 0)
  {
    match EscapedValues(ps, properties)
    case Err(e) => Err(e)
    case Ok(vs) => Ok(Splice(path, ps, vs))
  }

  /** What ResolveUri returns, as a string: `parameters` is None for a null parameter object. */
  function Resolve(path: string, parameters: Option<seq<Property>>): Result<string, ResolveError>
  {
    if parameters.None? then Ok(path)
    else
      var ps := ParseRoute(path);
      if ps == [] then Ok(path)
      else Substituted(path, ps, parameters.value)
  }

  /** The literal slice before placeholder `i` (or the trailing one, for `i == |ps|`) lies within the template. */
  lemma LiteralStartBounds(path: string, ps: seq<RouteParam>, i: nat)
    requires i <= |ps| && WellFormedFrom(path, ps, 0)
    ensures LiteralStart(ps, 0, i) <= |path|
    ensures i < |ps| ==> LiteralStart(ps, 0, i) <= ps[i].startIndex
  {
    if i > 0 {
      assert IsPlaceholderAt(path, ps[i - 1]);
    }
  }

  lemma SpliceUpToStep(path: string, ps: seq<RouteParam>, values: seq<string>, v: string, i: nat)
    requires i < |ps| && |values| == i && WellFormedFrom(path, ps, 0)
    requires LiteralStart(ps, 0, i) <= ps[i].startIndex <= |path|
    ensures SpliceUpTo(path, ps, values + [v], i + 1)
            == SpliceUpTo(path, ps, values, i) + path[LiteralStart(ps, 0, i)..ps[i].startIndex] + v
  {
    assert (values + [v])[..i] == values;
  }

  /** The first placeholder that cannot be resolved decides the error. */
  lemma {:induction false} EscapedValuesFirstError(ps: seq<RouteParam>, properties: seq<Property>, i: nat)
    requires i < |ps| && ParameterValue(properties, ps[i].paramName).Err?
    requires forall k :: 0 <= k < i ==> ParameterValue(properties, ps[k].paramName).Ok?
    ensures EscapedValues(ps, properties) == Err(ParameterValue(properties, ps[i].paramName).error)
  {
    if i > 0 {
      var tail := ps[1..];
      forall k | 0 <= k < i - 1
        ensures ParameterValue(properties, tail[k].paramName).Ok?
      {
        assert tail[k] == ps[k + 1];
      }
      assert tail[i - 1] == ps[i];
      EscapedValuesFirstError(tail, properties, i - 1);
      assert ParameterValue(properties, ps[0].paramName).Ok?;
    }
  }

  /** When every placeholder resolves, the values are those of the placeholders, in order. */
  lemma {:induction false} EscapedValuesAllOk(ps: seq<RouteParam>, properties: seq<Property>, values: seq<string>)
    requires |values| == |ps|
    requires forall k :: 0 <= k < |ps| ==> ParameterValue(properties, ps[k].paramName) == Ok(values[k])
    ensures EscapedValues(ps, properties) == Ok(values)
  {
    if ps != [] {
      var tail, rest := ps[1..], values[1..];
      forall k | 0 <= k < |tail|
        ensures ParameterValue(properties, tail[k].paramName) == Ok(rest[k])
      {
        assert tail[k] == ps[k + 1] && rest[k] == values[k + 1];
      }
      EscapedValuesAllOk(tail, properties, rest);
      assert ParameterValue(properties, ps[0].paramName) == Ok(values[0]);
      assert EscapedValues(ps, properties) == Ok([values[0]] + rest);
      assert [values[0]] + rest == values;
    }
  }

  /**
   * The substitution pass of ResolveUri: one loop over the placeholders, copying the
   * literal slice before each and then its escaped value, and the trailing literal last.
   */
  method SubstituteRouteParams(path: string, routeParams: seq<RouteParam>, properties: seq<Property>)
    returns (r: Result<string, ResolveError>)
    requires WellFormedFrom(path, routeParams, 0)
    ensures r == Substituted(path, routeParams, properties)
  {
    var sb := "";
    var lastStart := 0;
    ghost var values: seq<string> := [];
    for i := 0 to |routeParams|
      invariant |values| == i
      invariant forall k :: 0 <= k < i ==> ParameterValue(properties, routeParams[k].paramName) == Ok(values[k])
      invariant lastStart == LiteralStart(routeParams, 0, i)
      invariant sb == SpliceUpTo(path, routeParams, values, i)
    {
      var p := routeParams[i];
      var start := lastStart;
      var end := p.startIndex;
      var prop := FindProperty(properties, p.paramName);
      if prop.None? || prop.value.value.None? {
        SubstitutedFirstError(path, routeParams, properties, values, i);
        return if prop.None? then Err(MissingParameter(p.paramName)) else Err(NullParameterValue(p.paramName));
      }
      var propValue := UriEscaping.EscapeDataString(prop.value.value.value);
      SubstituteStep(path, routeParams, properties, values, propValue, i);
      sb := sb + path[start..end] + propValue;
      values := values + [propValue];
      lastStart := end + |p.paramName| + 2;
    }
    SubstitutedAll(path, routeParams, properties, values);
    if |path| > lastStart {
      sb := sb + path[lastStart..];
    }
    r := Ok(sb);
  }

  /** Placeholder `i` cannot be resolved after `i` that could: the substitution fails with its error. */
  lemma SubstitutedFirstError(path: string, ps: seq<RouteParam>, properties: seq<Property>, values: seq<string>, i: nat)
    requires WellFormedFrom(path, ps, 0)
    requires i < |ps| && |values| == i
    requires forall k :: 0 <= k < i ==> ParameterValue(properties, ps[k].paramName) == Ok(values[k])
    requires FindProperty(properties, ps[i].paramName).None?
             || FindProperty(properties, ps[i].paramName).value.value.None?
    ensures Substituted(path, ps, properties)
            == if FindProperty(properties, ps[i].paramName).None? then Err(MissingParameter(ps[i].paramName))
               else Err(NullParameterValue(ps[i].paramName))
  {
    EscapedValuesFirstError(ps, properties, i);
  }

  /**
   * One resolved placeholder: its literal slice lies in the template, and appending that
   * slice and the value extends the output, the record of values and the literal start.
   */
  lemma SubstituteStep(path: string, ps: seq<RouteParam>, properties: seq<Property>, values: seq<string>, v: string, i: nat)
    requires WellFormedFrom(path, ps, 0)
    requires i < |ps| && |values| == i
    requires forall k :: 0 <= k < i ==> ParameterValue(properties, ps[k].paramName) == Ok(values[k])
    requires FindProperty(properties, ps[i].paramName).Some?
    requires FindProperty(properties, ps[i].paramName).value.value.Some?
    requires v == UriEscaping.EscapeDataString(FindProperty(properties, ps[i].paramName).value.value.value)
    ensures LiteralStart(ps, 0, i) <= ps[i].startIndex <= |path|
    ensures SpliceUpTo(path, ps, values, i) + path[LiteralStart(ps, 0, i)..ps[i].startIndex] + v
            == SpliceUpTo(path, ps, values + [v], i + 1)
    ensures forall k :: 0 <= k < i + 1 ==> ParameterValue(properties, ps[k].paramName) == Ok((values + [v])[k])
    ensures ps[i].startIndex + |ps[i].paramName| + 2 == LiteralStart(ps, 0, i + 1)
  {
    LiteralStartBounds(path, ps, i);
    assert IsPlaceholderAt(path, ps[i]);
    SpliceUpToStep(path, ps, values, v, i);
    ValuesStep(ps, properties, values, v, i);
  }

  /** Every placeholder resolved: the substitution is the output so far and the trailing literal. */
  lemma SubstitutedAll(path: string, ps: seq<RouteParam>, properties: seq<Property>, values: seq<string>)
    requires WellFormedFrom(path, ps, 0)
    requires |values| == |ps|
    requires forall k :: 0 <= k < |ps| ==> ParameterValue(properties, ps[k].paramName) == Ok(values[k])
    ensures LiteralStart(ps, 0, |ps|) <= |path|
    ensures |path| > LiteralStart(ps, 0, |ps|) ==>
              Substituted(path, ps, properties) == Ok(SpliceUpTo(path, ps, values, |ps|) + path[LiteralStart(ps, 0, |ps|)..])
    ensures |path| <= LiteralStart(ps, 0, |ps|) ==>
              Substituted(path, ps, properties) == Ok(SpliceUpTo(path, ps, values, |ps|))
  {
    LiteralStartBounds(path, ps, |ps|);
    EscapedValuesAllOk(ps, properties, values);
    if |path| <= LiteralStart(ps, 0, |ps|) {
      assert path[LiteralStart(ps, 0, |ps|)..] == "";
      assert SpliceUpTo(path, ps, values, |ps|) + "" == SpliceUpTo(path, ps, values, |ps|);
    }
  }

  /** The loop's record of resolved values grows by the value just resolved. */
  lemma ValuesStep(ps: seq<RouteParam>, properties: seq<Property>, values: seq<string>, v: string, i: nat)
    requires i < |ps| && |values| == i
    requires forall k :: 0 <= k < i ==> ParameterValue(properties, ps[k].paramName) == Ok(values[k])
    requires FindProperty(properties, ps[i].paramName).Some?
    requires FindProperty(properties, ps[i].paramName).value.value.Some?
    requires v == UriEscaping.EscapeDataString(FindProperty(properties, ps[i].paramName).value.value.value)
    ensures forall k :: 0 <= k < i + 1 ==> ParameterValue(properties, ps[k].paramName) == Ok((values + [v])[k])
  {
  }

  /** The cache of parsed templates (a static ConcurrentDictionary in the source, a field of one instance here). */
  class PathResolveService {
    var cache: map<string, seq<RouteParam>>

    /** Every cached entry is the parse of its own template. */
    ghost predicate Valid()
      reads this
    {
      forall route :: route in cache ==> cache[route] == ParseRoute(route)
    }

    constructor()
      ensures Valid() && cache == map[]
    {
      cache := map[];
    }

    /** `cache.GetOrAdd(key, _ => GetRouteParameters(route))`: parse on a miss, reuse on a hit. */
    method GetOrAdd(route: string) returns (routeParams: seq<RouteParam>)
      requires Valid()
      modifies this
      ensures Valid()
      ensures routeParams == ParseRoute(route)
      ensures cache == old(cache)[route := routeParams]
      ensures route in old(cache) ==> cache == old(cache)
    {
      if route in cache {
        routeParams := cache[route];
      } else {
        routeParams := GetRouteParameters(route);
        cache := cache[route := routeParams];
      }
    }

    /**
     * ResolveUri, up to the final Uri construction: a null parameter object returns the
     * template unchanged without touching the cache; otherwise the template is parsed
     * (or found in the cache) and its placeholders are substituted.
     */
    method ResolveUri(path: string, parameters: Option<seq<Property>>) returns (r: Result<string, ResolveError>)
      requires Valid()
      modifies this
      ensures Valid()
      ensures r == Resolve(path, parameters)
      ensures parameters.None? ==> cache == old(cache)
      ensures parameters.Some? ==> cache == old(cache)[path := ParseRoute(path)]
    {
      if parameters.None? {
        return Ok(path);
      }
      var routeParams := GetOrAdd(path);
      if |routeParams| == 0 {
        return Ok(path);
      }
      r := SubstituteRouteParams(path, routeParams, parameters.value);
    }
  }

  /** A cache that was valid stays valid and keeps every entry it had, whatever is resolved. */
  lemma CacheOnlyGrows(before: map<string, seq<RouteParam>>, path: string)
    requires forall route :: route in before ==> before[route] == ParseRoute(route)
    ensures before.Keys <= before[path := ParseRoute(path)].Keys
    ensures forall route :: route in before ==> before[path := ParseRoute(path)][route] == before[route]
  {
  }

  /** Resolution fails exactly when some placeholder has no matching property, or a null one. */
  lemma ResolveFailsIff(path: string, properties: seq<Property>)
    ensures Resolve(path, Some(properties)).Err? <==>
      exists k :: 0 <= k < |ParseRoute(path)| &&
        (|| FindProperty(properties, ParseRoute(path)[k].paramName).None?
         || FindProperty(properties, ParseRoute(path)[k].paramName).value.value.None?)
  {
    var ps := ParseRoute(path);
    EscapedValuesSpec(ps, properties);
    if ps != [] && EscapedValues(ps, properties).Ok? {
      var vs := EscapedValues(ps, properties).value;
      forall k | 0 <= k < |ps|
        ensures FindProperty(properties, ps[k].paramName).Some?
        ensures FindProperty(properties, ps[k].paramName).value.value.Some?
      {
        assert ParameterValue(properties, ps[k].paramName) == Ok(vs[k]);
      }
    }
  }

  /** With the two parameter lists agreeing on every placeholder, resolution agrees. */
  lemma {:induction false} EscapedValuesPointwise(ps: seq<RouteParam>, props1: seq<Property>, props2: seq<Property>)
    requires forall k :: 0 <= k < |ps| ==>
      ParameterValue(props1, ps[k].paramName) == ParameterValue(props2, ps[k].paramName)
    ensures EscapedValues(ps, props1) == EscapedValues(ps, props2)
  {
    if ps != [] {
      assert forall k :: 0 <= k < |ps[1..]| ==> ps[1..][k] == ps[k + 1];
      EscapedValuesPointwise(ps[1..], props1, props2);
    }
  }

  /** A property whose name matches nothing being looked up does not change any lookup. */
  lemma {:induction false} FindPropertyIgnoresUnmatched(before: seq<Property>, x: Property, after: seq<Property>, name: string)
    requires !EqualsIgnoreCase(x.name, name)
    ensures FindProperty(before + [x] + after, name) == FindProperty(before + after, name)
  {
    if before == [] {
      assert before + [x] + after == [x] + after;
      assert ([x] + after)[1..] == after;
      assert before + after == after;
    } else {
      assert (before + [x] + after)[1..] == before[1..] + [x] + after;
      assert (before + after)[1..] == before[1..] + after;
      FindPropertyIgnoresUnmatched(before[1..], x, after, name);
    }
  }

  /** Properties that no placeholder names do not affect the output. */
  lemma UnusedPropertyIrrelevant(path: string, before: seq<Property>, x: Property, after: seq<Property>)
    requires forall k :: 0 <= k < |ParseRoute(path)| ==> !EqualsIgnoreCase(x.name, ParseRoute(path)[k].paramName)
    ensures Resolve(path, Some(before + [x] + after)) == Resolve(path, Some(before + after))
  {
    var ps := ParseRoute(path);
    forall k | 0 <= k < |ps|
      ensures ParameterValue(before + [x] + after, ps[k].paramName) == ParameterValue(before + after, ps[k].paramName)
    {
      FindPropertyIgnoresUnmatched(before, x, after, ps[k].paramName);
    }
    EscapedValuesPointwise(ps, before + [x] + after, before + after);
  }

  /** A template without "{" comes back unchanged, whatever the parameters. */
  lemma ResolveWithoutPlaceholders(path: string, parameters: Option<seq<Property>>)
    requires '{' !in path
    ensures Resolve(path, parameters) == Ok(path)
  {
    NoBraceNoParams(path);
  }

  /** The "{name}" text of each placeholder, as it stands in the template. */
  function Braced(ps: seq<RouteParam>): (r: seq<string>)
    ensures |r| == |ps|
    ensures forall k :: 0 <= k < |ps| ==> r[k] == "{" + ps[k].paramName + "}"
  {
    seq(|ps|, k requires 0 <= k < |ps| => "{" + ps[k].paramName + "}")
  }

  /** A closed placeholder's text in the template is its name between braces. */
  lemma PlaceholderText(path: string, p: RouteParam)
    requires IsPlaceholderAt(path, p)
    ensures path[p.startIndex..End(p)] == "{" + p.paramName + "}"
  {
    var t := path[p.startIndex..End(p)];
    var braced := "{" + p.paramName + "}";
    assert |t| == |braced|;
    forall j | 0 <= j < |t|
      ensures t[j] == braced[j]
    {
      if 0 < j < |t| - 1 {
        assert t[j] == path[p.startIndex + 1..End(p) - 1][j - 1];
      }
    }
  }

  /** A prefix of the template, the literal slice after it and the placeholder after that make a longer prefix. */
  lemma PrefixExtend(path: string, prefix: string, before: nat, start: nat, end: nat, placeholder: string)
    requires before <= start <= end <= |path|
    requires prefix == path[..before] && placeholder == path[start..end]
    ensures prefix + path[before..start] + placeholder == path[..end]
  {
  }

  /** One more placeholder put back extends the restored prefix past it. */
  lemma SpliceUpToBracedStep(path: string, ps: seq<RouteParam>, values: seq<string>, i: nat)
    requires 0 < i <= |ps| && |values| == i && WellFormedFrom(path, ps, 0)
    requires LiteralStart(ps, 0, i - 1) <= |path|
    requires SpliceUpTo(path, ps, values[..i - 1], i - 1) == path[..LiteralStart(ps, 0, i - 1)]
    requires values[i - 1] == "{" + ps[i - 1].paramName + "}"
    ensures LiteralStart(ps, 0, i) <= |path|
    ensures SpliceUpTo(path, ps, values, i) == path[..LiteralStart(ps, 0, i)]
  {
    var p := ps[i - 1];
    assert IsPlaceholderAt(path, p);
    PlaceholderText(path, p);
    PrefixExtend(path, SpliceUpTo(path, ps, values[..i - 1], i - 1), LiteralStart(ps, 0, i - 1), p.startIndex, End(p), values[i - 1]);
  }

  /** Splicing each placeholder's own "{name}" back into the first `i` slots restores the template's prefix. */
  lemma {:induction false} SpliceUpToBraced(path: string, ps: seq<RouteParam>, values: seq<string>, i: nat)
    requires i <= |ps| && |values| == i && WellFormedFrom(path, ps, 0)
    requires forall k :: 0 <= k < i ==> values[k] == "{" + ps[k].paramName + "}"
    ensures LiteralStart(ps, 0, i) <= |path|
    ensures SpliceUpTo(path, ps, values, i) == path[..LiteralStart(ps, 0, i)]
  {
    if i > 0 {
      SpliceUpToBraced(path, ps, values[..i - 1], i - 1);
      SpliceUpToBracedStep(path, ps, values, i);
    }
  }

  /** A text is its prefix up to `n` followed by the rest. */
  lemma SplitAt(s: string, n: nat)
    requires n <= |s|
    ensures s[..n] + s[n..] == s
  {
  }

  /** Putting every placeholder's own "{name}" back into a template gives the template. */
  lemma SpliceBraced(path: string, ps: seq<RouteParam>)
    requires WellFormedFrom(path, ps, 0)
    ensures Splice(path, ps, Braced(ps)) == path
  {
    var n := LiteralStart(ps, 0, |ps|);
    SpliceUpToBraced(path, ps, Braced(ps), |ps|);
    SplitAt(path, n);
  }

  /** Putting every placeholder's own "{name}" back gives the template: the parse loses nothing. */
  lemma SpliceBracedIsIdentity(path: string)
    ensures Splice(path, ParseRoute(path), Braced(ParseRoute(path))) == path
  {
    SpliceBraced(path, ParseRoute(path));
  }
}

/** The two resolutions the unit tests of PathResolveService check. */
module PathResolveExamples {
  import opened Wrappers
  import opened RouteParser
  import opened PathResolveService
  import UriEscaping

  /** "{name}" written between two literal texts is a closed placeholder at the end of the first. */
  lemma PlaceholderBetween(pre: string, name: string, post: string)
    requires '}' !in name
    ensures IsPlaceholderAt(pre + "{" + name + "}" + post, RouteParam(name, |pre|))
  {
    var path := pre + "{" + name + "}" + post;
    assert path[|pre| + 1..|pre| + 1 + |name|] == name;
  }

  /** A literal text without "{" contributes no opening brace. */
  lemma LiteralBetween(pre: string, lit: string, post: string)
    requires '{' !in lit
    ensures NoOpenBrace(pre + lit + post, |pre|, |pre| + |lit|)
  {
    var path := pre + lit + post;
    forall j | |pre| <= j < |pre| + |lit| && j < |path|
      ensures path[j] != '{'
    {
      assert path[j] == lit[j - |pre|];
    }
  }

  /** A tail without "{" closes no placeholder. */
  lemma LiteralTail(pre: string, lit: string)
    requires '{' !in lit
    ensures NoClosedPair(pre + lit, |pre|)
  {
    var path := pre + lit;
    forall j | |pre| <= j < |path|
      ensures path[j] != '{'
    {
      assert path[j] == lit[j - |pre|];
    }
  }

  /** A template with one placeholder between brace-free literals yields exactly that placeholder. */
  lemma ParseOnePlaceholder(pre: string, name: string, post: string)
    requires '{' !in pre && '}' !in name && '{' !in post
    ensures ParseRoute(pre + "{" + name + "}" + post) == [RouteParam(name, |pre|)]
  {
    var path := pre + "{" + name + "}" + post;
    var ps := [RouteParam(name, |pre|)];
    PlaceholderBetween(pre, name, post);
    assert WellFormedFrom(path, ps, 0);
    assert path == "" + pre + ("{" + name + "}" + post);
    LiteralBetween("", pre, "{" + name + "}" + post);
    assert path == (pre + "{" + name + "}") + post;
    LiteralTail(pre + "{" + name + "}", post);
    assert CompleteFrom(path, ps, 0);
    ParseRouteUnique(path, ps);
  }

  /** Two placeholders separated by a literal are closed placeholders of the template, in order. */
  lemma TwoWellFormed(pre: string, name1: string, mid: string, name2: string, post: string)
    requires '}' !in name1 && '}' !in name2
    ensures var first := pre + "{" + name1 + "}" + mid;
            WellFormedFrom(first + "{" + name2 + "}" + post, [RouteParam(name1, |pre|), RouteParam(name2, |first|)], 0)
  {
    var first := pre + "{" + name1 + "}" + mid;
    var path := first + "{" + name2 + "}" + post;
    assert path == pre + "{" + name1 + "}" + (mid + "{" + name2 + "}" + post);
    PlaceholderBetween(pre, name1, mid + "{" + name2 + "}" + post);
    PlaceholderBetween(first, name2, post);
  }

  /** Brace-free literals around two placeholders leave nothing for the scan to miss. */
  lemma TwoComplete(pre: string, name1: string, mid: string, name2: string, post: string)
    requires '{' !in pre && '{' !in mid && '{' !in post
    ensures var first := pre + "{" + name1 + "}" + mid;
            CompleteFrom(first + "{" + name2 + "}" + post, [RouteParam(name1, |pre|), RouteParam(name2, |first|)], 0)
  {
    var first := pre + "{" + name1 + "}" + mid;
    var path := first + "{" + name2 + "}" + post;
    assert path == "" + pre + ("{" + name1 + "}" + mid + "{" + name2 + "}" + post);
    LiteralBetween("", pre, "{" + name1 + "}" + mid + "{" + name2 + "}" + post);
    assert path == (pre + "{" + name1 + "}") + mid + ("{" + name2 + "}" + post);
    LiteralBetween(pre + "{" + name1 + "}", mid, "{" + name2 + "}" + post);
    assert path == (first + "{" + name2 + "}") + post;
    LiteralTail(first + "{" + name2 + "}", post);
  }

  /** The same with two placeholders separated by a brace-free literal. */
  lemma ParseTwoPlaceholders(pre: string, name1: string, mid: string, name2: string, post: string)
    requires '{' !in pre && '}' !in name1 && '{' !in mid && '}' !in name2 && '{' !in post
    ensures var first := pre + "{" + name1 + "}" + mid;
            ParseRoute(first + "{" + name2 + "}" + post) == [RouteParam(name1, |pre|), RouteParam(name2, |first|)]
  {
    var first := pre + "{" + name1 + "}" + mid;
    TwoWellFormed(pre, name1, mid, name2, post);
    TwoComplete(pre, name1, mid, name2, post);
    ParseRouteUnique(first + "{" + name2 + "}" + post, [RouteParam(name1, |pre|), RouteParam(name2, |first|)]);
  }

  /** The photo template of the unit tests, cut at its placeholders. */
  lemma PhotoTemplatePieces()
    ensures "/users/{userId}/photos/{photoId}" == "/users/" + "{" + "userId" + "}" + "/photos/" + "{" + "photoId" + "}" + ""
    ensures '{' !in "/users/" && '}' !in "userId" && '{' !in "/photos/" && '}' !in "photoId" && '{' !in ""
  {
    assert "/users/" + "{" + "userId" + "}" == "/users/{userId}";
    assert "/photos/" + "{" + "photoId" + "}" == "/photos/{photoId}";
    assert "/users/{userId}" + "/photos/{photoId}" == "/users/{userId}/photos/{photoId}";
  }

  lemma ParsePhotoRoute()
    ensures ParseRoute("/users/{userId}/photos/{photoId}") == [RouteParam("userId", 7), RouteParam("photoId", 23)]
  {
    PhotoTemplatePieces();
    ParseTwoPlaceholders("/users/", "userId", "/photos/", "photoId", "");
  }

  lemma ParseUserRoute()
    ensures ParseRoute("/users/{userId}/photos") == [RouteParam("userId", 7)]
  {
    assert "/users/{userId}/photos" == "/users/" + "{" + "userId" + "}" + "/photos" by {
      assert "/users/" + "{" + "userId" + "}" + "/photos" == "/users/{userId}/photos";
    }
    assert '{' !in "/users/" && '}' !in "userId" && '{' !in "/photos";
    ParseOnePlaceholder("/users/", "userId", "/photos");
  }

  /** A property named exactly like the placeholder supplies its value. */
  lemma OneValue(name: string, start: nat, value: string)
    ensures EscapedValues([RouteParam(name, start)], [Property(name, Some(value))])
            == Ok([UriEscaping.EscapeDataString(value)])
  {
    var props := [Property(name, Some(value))];
    CaseFolding.EqualsIgnoreCaseIsEquivalence(name, name, name);
    assert ParameterValue(props, name) == Ok(UriEscaping.EscapeDataString(value));
    EscapedValuesAllOk([RouteParam(name, start)], props, [UriEscaping.EscapeDataString(value)]);
  }

  /** Splicing a value into a one-placeholder template keeps the two literals around it. */
  lemma SpliceOne(pre: string, name: string, post: string, v: string)
    requires '}' !in name
    ensures var path := pre + "{" + name + "}" + post;
            var ps := [RouteParam(name, |pre|)];
            && WellFormedFrom(path, ps, 0)
            && Splice(path, ps, [v]) == pre + v + post
  {
    var path := pre + "{" + name + "}" + post;
    var ps := [RouteParam(name, |pre|)];
    PlaceholderBetween(pre, name, post);
    assert WellFormedFrom(path, ps, 0);
    assert path[0..|pre|] == pre;
    assert path[|pre| + |name| + 2..] == post;
    assert SpliceUpTo(path, ps, [v], 1) == pre + v by {
      assert [v][..0] == [];
    }
  }

  /** The value of a template with one placeholder: the escaped value between the two literals. */
  lemma ResolveOnePlaceholder(pre: string, name: string, post: string, value: string)
    requires '{' !in pre && '}' !in name && '{' !in post
    ensures Resolve(pre + "{" + name + "}" + post, Some([Property(name, Some(value))]))
            == Ok(pre + UriEscaping.EscapeDataString(value) + post)
  {
    ParseOnePlaceholder(pre, name, post);
    OneValue(name, |pre|, value);
    SpliceOne(pre, name, post, UriEscaping.EscapeDataString(value));
  }

  /** Two properties whose names differ (ignoring case) each supply their own placeholder. */
  lemma TwoDistinctValues(ps: seq<RouteParam>, props: seq<Property>, value1: string, value2: string)
    requires |ps| == 2 && props == [Property(ps[0].paramName, Some(value1)), Property(ps[1].paramName, Some(value2))]
    requires !CaseFolding.EqualsIgnoreCase(ps[0].paramName, ps[1].paramName)
    ensures EscapedValues(ps, props) == Ok([UriEscaping.EscapeDataString(value1), UriEscaping.EscapeDataString(value2)])
  {
    assert FindProperty(props, ps[0].paramName) == Some(props[0]);
    assert FindProperty(props[1..], ps[1].paramName) == Some(props[1]);
    EscapedValuesAllOk(ps, props, [UriEscaping.EscapeDataString(value1), UriEscaping.EscapeDataString(value2)]);
  }

  /** Splicing two values into a two-placeholder template keeps the three literals around them. */
  lemma SpliceTwo(pre: string, name1: string, mid: string, name2: string, post: string, v1: string, v2: string)
    requires '}' !in name1 && '}' !in name2
    ensures var first := pre + "{" + name1 + "}" + mid;
            var path := first + "{" + name2 + "}" + post;
            var ps := [RouteParam(name1, |pre|), RouteParam(name2, |first|)];
            && WellFormedFrom(path, ps, 0)
            && Splice(path, ps, [v1, v2]) == pre + v1 + mid + v2 + post
  {
    var first := pre + "{" + name1 + "}" + mid;
    var path := first + "{" + name2 + "}" + post;
    var ps := [RouteParam(name1, |pre|), RouteParam(name2, |first|)];
    assert path == pre + "{" + name1 + "}" + (mid + "{" + name2 + "}" + post);
    PlaceholderBetween(pre, name1, mid + "{" + name2 + "}" + post);
    PlaceholderBetween(first, name2, post);
    assert WellFormedFrom(path, ps, 0);
    assert path[0..|pre|] == pre;
    assert path[|pre| + |name1| + 2..|first|] == mid;
    assert path[|first| + |name2| + 2..] == post;
    assert SpliceUpTo(path, ps, [v1], 1) == pre + v1 by {
      assert [v1][..0] == [];
    }
    assert SpliceUpTo(path, ps, [v1, v2], 2) == pre + v1 + mid + v2 by {
      assert [v1, v2][..1] == [v1];
    }
  }

  /**
   * The value of a template with two placeholders whose names differ (ignoring case):
   * each is replaced by the escaped value of its own property.
   */
  lemma ResolveTwoPlaceholders(pre: string, name1: string, mid: string, name2: string, post: string,
                               value1: string, value2: string)
    requires '{' !in pre && '}' !in name1 && '{' !in mid && '}' !in name2 && '{' !in post
    requires !CaseFolding.EqualsIgnoreCase(name1, name2)
    ensures Resolve(pre + "{" + name1 + "}" + mid + "{" + name2 + "}" + post,
                    Some([Property(name1, Some(value1)), Property(name2, Some(value2))]))
            == Ok(pre + UriEscaping.EscapeDataString(value1) + mid + UriEscaping.EscapeDataString(value2) + post)
  {
    var first := pre + "{" + name1 + "}" + mid;
    var ps := [RouteParam(name1, |pre|), RouteParam(name2, |first|)];
    ParseTwoPlaceholders(pre, name1, mid, name2, post);
    TwoDistinctValues(ps, [Property(name1, Some(value1)), Property(name2, Some(value2))], value1, value2);
    SpliceTwo(pre, name1, mid, name2, post, UriEscaping.EscapeDataString(value1), UriEscaping.EscapeDataString(value2));
  }

  /** PathResolveServiceTest: "/users/{userId}/photos/{photoId}" with userId "A01" and photoId "7d36b9155". */
  lemma ResolvePhotoRoute()
    ensures Resolve("/users/{userId}/photos/{photoId}",
                    Some([Property("userId", Some("A01")), Property("photoId", Some("7d36b9155"))]))
            == Ok("/users/A01/photos/7d36b9155")
  {
    assert "/users/" + "A01" + "/photos/" + "7d36b9155" + "" == "/users/A01/photos/7d36b9155";
    PhotoTemplatePieces();
    PhotoValues();
    ResolveTwoPlaceholders("/users/", "userId", "/photos/", "photoId", "", "A01", "7d36b9155");
  }

  /** The test's two values need no escaping, and its two names differ even ignoring case. */
  lemma PhotoValues()
    ensures UriEscaping.EscapeDataString("A01") == "A01"
    ensures UriEscaping.EscapeDataString("7d36b9155") == "7d36b9155"
    ensures !CaseFolding.EqualsIgnoreCase("userId", "photoId")
  {
    assert !CaseFolding.EqualsIgnoreCase("userId", "photoId");
    UriEscaping.EscapeUnreservedIsIdentity("A01");
    UriEscaping.EscapeUnreservedIsIdentity("7d36b9155");
  }

  /** PathResolveServiceTest: "/users/{userId}/photos" with userId "A01" keeps the trailing literal. */
  lemma ResolveUserRoute()
    ensures Resolve("/users/{userId}/photos", Some([Property("userId", Some("A01"))])) == Ok("/users/A01/photos")
  {
    assert "/users/" + "A01" + "/photos" == "/users/A01/photos";
    assert "/users/{userId}/photos" == "/users/" + "{" + "userId" + "}" + "/photos" by {
      assert "/users/" + "{" + "userId" + "}" + "/photos" == "/users/{userId}/photos";
    }
    assert '{' !in "/users/" && '}' !in "userId" && '{' !in "/photos";
    UriEscaping.EscapeUnreservedIsIdentity("A01");
    ResolveOnePlaceholder("/users/", "userId", "/photos", "A01");
  }
}

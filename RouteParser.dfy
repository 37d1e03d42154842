/**
 * The route template scanner of PathResolveService.GetRouteParameters: a two-state
 * machine (outside / inside "{...}") that lists every closed placeholder of a template
 * with the offset of its opening brace.
 */
module RouteParser {
  import opened Wrappers

  /** One placeholder: its name and the offset of its "{" in the template. */
  datatype RouteParam = RouteParam(paramName: string, startIndex: nat)

  /** The offset just past the placeholder's "}". */
  function End(p: RouteParam): nat
  {
    p.startIndex + |p.paramName| + 2
  }

  /** The first offset at or after `from` holding `c`, if there is one. */
  function IndexOfFrom(s: string, c: char, from: nat): (r: Option<nat>)
    requires from <= |s|
    ensures r.Some? ==> from <= r.value < |s| && s[r.value] == c
    ensures r.Some? ==> forall k :: from <= k < r.value ==> s[k] != c
    ensures r.None? ==> forall k :: from <= k < |s| ==> s[k] != c
    decreases |s| - from
  {
    if from == |s| then None
    else if s[from] == c then Some(from)
    else IndexOfFrom(s, c, from + 1)
  }

  /**
   * Reference definition of the scan from offset `from`, outside any placeholder:
   * the next "{" opens a placeholder, the next "}" after it closes it, and the scan
   * resumes after that "}". With no "{" left, or a "{" never closed, nothing more is found.
   */
  function ParseFrom(path: string, from: nat): seq<RouteParam>
    requires from <= |path|
    decreases |path| - from
  {
    match IndexOfFrom(path, '{', from)
    case None => []
    case Some(open) => Pending(path, open, open + 1)
  }

  /**
   * The rest of the scan when the placeholder opened at `open` has been read up to
   * (not including) offset `from`.
   */
  function Pending(path: string, open: nat, from: nat): seq<RouteParam>
    requires open < from <= |path|
    decreases |path| - from, 0
  {
    match IndexOfFrom(path, '}', from)
    case None => []
    case Some(close) => [RouteParam(path[open + 1..close], open)] + ParseFrom(path, close + 1)
  }

  /**
   * What GetRouteParameters returns for a template: its closed placeholders, in order,
   * without overlap, none missed (see ParseRouteUnique for the converse).
   */
  function ParseRoute(path: string): (r: seq<RouteParam>)
    ensures WellFormedFrom(path, r, 0)
    ensures CompleteFrom(path, r, 0)
  {
    ParseFromWellFormed(path, 0);
    ParseFromComplete(path, 0);
    ParseFrom(path, 0)
  }

  /** Inside a placeholder, a character other than "}" leaves the pending result unchanged. */
  lemma PendingSkip(path: string, open: nat, i: nat)
    requires open < i < |path| && path[i] != '}'
    ensures Pending(path, open, i) == Pending(path, open, i + 1)
  {
  }

  /** Outside a placeholder, a character other than "{" leaves the remaining result unchanged. */
  lemma ParseFromSkip(path: string, i: nat)
    requires i < |path| && path[i] != '{'
    ensures ParseFrom(path, i) == ParseFrom(path, i + 1)
  {
  }

  /** Outside a placeholder, a "{" opens one. */
  lemma ParseFromOpen(path: string, i: nat)
    requires i < |path| && path[i] == '{'
    ensures ParseFrom(path, i) == Pending(path, i, i + 1)
  {
  }

  /** Inside a placeholder, a "}" closes it and the scan resumes outside, after it. */
  lemma PendingClose(path: string, open: nat, i: nat)
    requires open < i < |path| && path[i] == '}'
    ensures Pending(path, open, i) == [RouteParam(path[open + 1..i], open)] + ParseFrom(path, i + 1)
  {
  }

  /** The variables of the GetRouteParameters loop between two characters. */
  datatype ScanState = ScanState(routeParams: seq<RouteParam>, sb: string, isSubtracting: bool,
                                 routeParamStartIndex: nat)

  /** What the loop body does with the character at `index`. */
  function ScanStep(path: string, st: ScanState, index: nat): ScanState
    requires index < |path|
  {
    var c := path[index];
    if !st.isSubtracting then
      (if c == '{' then st.(isSubtracting := true, routeParamStartIndex := index, sb := "") else st)
    else if c == '}' then
      st.(isSubtracting := false, routeParams := st.routeParams + [RouteParam(st.sb, st.routeParamStartIndex)])
    else
      st.(sb := st.sb + [c])
  }

  /** The loop run from `index` to the end of the template. */
  function Scan(path: string, st: ScanState, index: nat): ScanState
    requires index <= |path|
    decreases |path| - index
  {
    if index == |path| then st else Scan(path, ScanStep(path, st, index), index + 1)
  }

  /** The states the loop can be in at `index`: inside a placeholder, the buffer holds its name so far. */
  predicate ScanInvariant(path: string, st: ScanState, index: nat)
  {
    && index <= |path|
    && (st.isSubtracting ==> st.routeParamStartIndex < index)
    && (st.isSubtracting ==> st.sb == path[st.routeParamStartIndex + 1..index])
  }

  /**
   * What the run from a state at `index` ends with, by the reference scan: the results so
   * far, then the rest of the template outside a placeholder, or the pending placeholder
   * and what follows it inside one.
   */
  function Expected(path: string, st: ScanState, index: nat): seq<RouteParam>
    requires ScanInvariant(path, st, index)
  {
    if st.isSubtracting then st.routeParams + Pending(path, st.routeParamStartIndex, index)
    else st.routeParams + ParseFrom(path, index)
  }

  /** One character of the loop keeps the states it can be in and what the run ends with. */
  lemma ScanStepExpected(path: string, st: ScanState, index: nat)
    requires ScanInvariant(path, st, index) && index < |path|
    ensures ScanInvariant(path, ScanStep(path, st, index), index + 1)
    ensures Expected(path, ScanStep(path, st, index), index + 1) == Expected(path, st, index)
  {
    var c := path[index];
    if !st.isSubtracting {
      if c == '{' {
        ParseFromOpen(path, index);
      } else {
        ParseFromSkip(path, index);
      }
    } else if c == '}' {
      var p := RouteParam(st.sb, st.routeParamStartIndex);
      PendingClose(path, st.routeParamStartIndex, index);
      assert (st.routeParams + [p]) + ParseFrom(path, index + 1) == st.routeParams + ([p] + ParseFrom(path, index + 1));
    } else {
      PendingSkip(path, st.routeParamStartIndex, index);
      assert st.sb + [c] == path[st.routeParamStartIndex + 1..index + 1];
    }
  }

  /** From any state the loop can be in, the rest of the run ends with what the reference scan finds. */
  lemma {:induction false} ScanFinds(path: string, st: ScanState, index: nat)
    requires ScanInvariant(path, st, index)
    ensures Scan(path, st, index).routeParams == Expected(path, st, index)
    decreases |path| - index
  {
    if index < |path| {
      ScanStepExpected(path, st, index);
      ScanFinds(path, ScanStep(path, st, index), index + 1);
    }
  }

  /**
   * GetRouteParameters: one pass over the template with a mutable index, an
   * "inside a placeholder" flag, a name buffer that is cleared on "{" and appended to
   * inside, and a growing list of results.
   */
  method GetRouteParameters(path: string) returns (routeParams: seq<RouteParam>)
    ensures routeParams == ParseRoute(path)
  {
    routeParams := [];
    var sb := "";
    var isSubtracting := false;
    var routeParamStartIndex := 0;
    var index := 0;
    ghost var start := ScanState([], "", false, 0);
    while index < |path|
      invariant 0 <= index <= |path|
      invariant Scan(path, ScanState(routeParams, sb, isSubtracting, routeParamStartIndex), index) == Scan(path, start, 0)
    {
      var c := path[index];
      if !isSubtracting {
        if c == '{' {
          isSubtracting := true;
          routeParamStartIndex := index;
          sb := "";
        }
      } else if c == '}' {
        isSubtracting := false;
        routeParams := routeParams + [RouteParam(sb, routeParamStartIndex)];
      } else {
        sb := sb + [c];
      }
      index := index + 1;
    }
    ScanFinds(path, start, 0);
  }

  /** `p` is a closed placeholder of `path`: "{", then its name (holding no "}"), then "}". */
  predicate IsPlaceholderAt(path: string, p: RouteParam)
  {
    && End(p) <= |path|
    && path[p.startIndex] == '{'
    && path[p.startIndex + 1..End(p) - 1] == p.paramName
    && path[End(p) - 1] == '}'
    && '}' !in p.paramName
  }

  /** Each placeholder ends before any later one starts. */
  predicate Disjoint(ps: seq<RouteParam>)
  {
    forall i, j :: 0 <= i < j < |ps| ==> End(ps[i]) <= ps[j].startIndex
  }

  /** The entries a scan from `from` may return: closed placeholders at or after `from`, in order. */
  predicate WellFormedFrom(path: string, ps: seq<RouteParam>, from: nat)
  {
    && (forall k :: 0 <= k < |ps| ==> IsPlaceholderAt(path, ps[k]) && from <= ps[k].startIndex)
    && Disjoint(ps)
  }

  /** No "{" at offsets `a` (inclusive) to `b` (exclusive). */
  predicate NoOpenBrace(path: string, a: nat, b: nat)
  {
    forall j :: a <= j < b && j < |path| ==> path[j] != '{'
  }

  /** No "{" in `path` from `a` on is followed, later, by a "}". */
  predicate NoClosedPair(path: string, a: nat)
  {
    forall j, l :: a <= j < l < |path| && path[j] == '{' ==> path[l] != '}'
  }

  /** Where the literal text before entry `k` starts: `from`, or the end of entry `k - 1`. */
  function LiteralStart(ps: seq<RouteParam>, from: nat, k: nat): nat
    requires k <= |ps|
  {
    if k == 0 then from else End(ps[k - 1])
  }

  /**
   * Nothing was missed: the literal text before each entry holds no "{", and after
   * the last entry no "{" is ever followed by a "}".
   */
  predicate CompleteFrom(path: string, ps: seq<RouteParam>, from: nat)
  {
    && (forall k :: 0 <= k < |ps| ==> NoOpenBrace(path, LiteralStart(ps, from, k), ps[k].startIndex))
    && NoClosedPair(path, LiteralStart(ps, from, |ps|))
  }

  /** Every entry is a closed placeholder of the template, and the entries do not overlap. */
  lemma {:induction false} ParseFromWellFormed(path: string, from: nat)
    requires from <= |path|
    ensures WellFormedFrom(path, ParseFrom(path, from), from)
    decreases |path| - from
  {
    match IndexOfFrom(path, '{', from)
    case None =>
    case Some(open) =>
      match IndexOfFrom(path, '}', open + 1)
      case None =>
      case Some(close) =>
        var p := RouteParam(path[open + 1..close], open);
        ParseFromWellFormed(path, close + 1);
        ParseFromClosed(path, from, open, close);
        ClosedIsPlaceholder(path, open, close);
        WellFormedCons(path, p, ParseFrom(path, close + 1), from);
  }

  /** The text between a "{" and the first "}" after it is a closed placeholder. */
  lemma ClosedIsPlaceholder(path: string, open: nat, close: nat)
    requires open < |path| && path[open] == '{'
    requires IndexOfFrom(path, '}', open + 1) == Some(close)
    ensures IsPlaceholderAt(path, RouteParam(path[open + 1..close], open))
  {
  }

  /** A placeholder before well-formed entries that start after it keeps them well formed. */
  lemma WellFormedCons(path: string, p: RouteParam, rest: seq<RouteParam>, from: nat)
    requires IsPlaceholderAt(path, p) && from <= p.startIndex
    requires WellFormedFrom(path, rest, End(p))
    ensures WellFormedFrom(path, [p] + rest, from)
  {
    var ps := [p] + rest;
    forall k | 0 < k < |ps|
      ensures ps[k] == rest[k - 1]
    {
    }
  }

  lemma CompleteCons(path: string, p: RouteParam, rest: seq<RouteParam>, from: nat)
    requires NoOpenBrace(path, from, p.startIndex)
    requires CompleteFrom(path, rest, End(p))
    ensures CompleteFrom(path, [p] + rest, from)
  {
    var ps := [p] + rest;
    forall k | 0 <= k < |ps|
      ensures NoOpenBrace(path, LiteralStart(ps, from, k), ps[k].startIndex)
    {
      if k > 0 {
        assert ps[k] == rest[k - 1] && ps[k - 1] == if k == 1 then p else rest[k - 2];
        assert LiteralStart(ps, from, k) == LiteralStart(rest, End(p), k - 1);
      }
    }
    assert LiteralStart(ps, from, |ps|) == LiteralStart(rest, End(p), |rest|) by {
      assert ps[|ps| - 1] == if |rest| == 0 then p else rest[|rest| - 1];
    }
  }

  lemma CompleteWithoutOpenBrace(path: string, from: nat)
    requires from <= |path| && IndexOfFrom(path, '{', from).None?
    ensures CompleteFrom(path, ParseFrom(path, from), from)
  {
    assert ParseFrom(path, from) == [];
    assert LiteralStart([], from, 0) == from;
  }

  lemma CompleteUnclosed(path: string, from: nat, open: nat)
    requires from <= |path| && IndexOfFrom(path, '{', from) == Some(open)
    requires IndexOfFrom(path, '}', open + 1).None?
    ensures CompleteFrom(path, ParseFrom(path, from), from)
  {
    assert ParseFrom(path, from) == [];
    assert LiteralStart([], from, 0) == from;
    forall j, l | from <= j < l < |path| && path[j] == '{' ensures path[l] != '}' {
      assert open <= j;
    }
  }

  /** The scan misses no closed placeholder. */
  lemma {:induction false} ParseFromComplete(path: string, from: nat)
    requires from <= |path|
    ensures CompleteFrom(path, ParseFrom(path, from), from)
    decreases |path| - from
  {
    match IndexOfFrom(path, '{', from)
    case None =>
      CompleteWithoutOpenBrace(path, from);
    case Some(open) =>
      match IndexOfFrom(path, '}', open + 1)
      case None =>
        CompleteUnclosed(path, from, open);
      case Some(close) =>
        ParseFromComplete(path, close + 1);
        CompleteClosed(path, from, open, close);
  }

  lemma CompleteClosed(path: string, from: nat, open: nat, close: nat)
    requires from <= |path| && IndexOfFrom(path, '{', from) == Some(open)
    requires IndexOfFrom(path, '}', open + 1) == Some(close)
    requires CompleteFrom(path, ParseFrom(path, close + 1), close + 1)
    ensures CompleteFrom(path, ParseFrom(path, from), from)
  {
    var p := RouteParam(path[open + 1..close], open);
    ParseFromClosed(path, from, open, close);
    CompleteCons(path, p, ParseFrom(path, close + 1), from);
  }

  /** A closed placeholder found from `from` heads the scan, followed by the scan after its "}". */
  lemma ParseFromClosed(path: string, from: nat, open: nat, close: nat)
    requires from <= |path| && IndexOfFrom(path, '{', from) == Some(open)
    requires IndexOfFrom(path, '}', open + 1) == Some(close)
    ensures ParseFrom(path, from) == [RouteParam(path[open + 1..close], open)] + ParseFrom(path, close + 1)
    ensures NoOpenBrace(path, from, open)
    ensures End(RouteParam(path[open + 1..close], open)) == close + 1
  {
  }

  /** The first occurrence of `c` at or after `from` is found, whatever lies beyond it. */
  lemma IndexOfFromFirst(s: string, c: char, from: nat, x: nat)
    requires from <= x < |s| && s[x] == c
    requires forall k :: from <= k < x ==> s[k] != c
    ensures IndexOfFrom(s, c, from) == Some(x)
  {
  }

  lemma CompleteTail(path: string, p: RouteParam, rest: seq<RouteParam>, from: nat)
    requires CompleteFrom(path, [p] + rest, from)
    ensures NoOpenBrace(path, from, p.startIndex)
    ensures CompleteFrom(path, rest, End(p))
  {
    var ps := [p] + rest;
    assert LiteralStart(ps, from, 0) == from;
    forall k | 0 <= k <= |rest|
      ensures LiteralStart(rest, End(p), k) == LiteralStart(ps, from, k + 1)
    {
    }
    forall k | 0 <= k < |rest|
      ensures NoOpenBrace(path, LiteralStart(rest, End(p), k), rest[k].startIndex)
    {
      assert ps[k + 1] == rest[k];
    }
  }

  lemma UniqueWhenEmpty(path: string, from: nat)
    requires from <= |path| && NoClosedPair(path, from)
    ensures ParseFrom(path, from) == []
  {
    match IndexOfFrom(path, '{', from)
    case None =>
    case Some(open) =>
  }

  /** Between the braces of a closed placeholder there is no "}". */
  lemma PlaceholderHasNoClose(path: string, p: RouteParam)
    requires IsPlaceholderAt(path, p)
    ensures forall k :: p.startIndex + 1 <= k < End(p) - 1 ==> path[k] != '}'
  {
    var name := path[p.startIndex + 1..End(p) - 1];
    forall k | p.startIndex + 1 <= k < End(p) - 1 ensures path[k] != '}' {
      var j := k - (p.startIndex + 1);
      assert path[k] == name[j];
      assert name[j] in p.paramName;
    }
  }

  /** A closed placeholder preceded by literal text without "{" is the next entry of the scan. */
  lemma ParseFromStep(path: string, from: nat, p: RouteParam)
    requires from <= p.startIndex && IsPlaceholderAt(path, p)
    requires NoOpenBrace(path, from, p.startIndex)
    ensures ParseFrom(path, from) == [p] + ParseFrom(path, End(p))
  {
    var close := End(p) - 1;
    IndexOfFromFirst(path, '{', from, p.startIndex);
    PlaceholderHasNoClose(path, p);
    IndexOfFromFirst(path, '}', p.startIndex + 1, close);
    ParseFromClosed(path, from, p.startIndex, close);
    assert RouteParam(path[p.startIndex + 1..close], p.startIndex) == p;
  }

  lemma WellFormedTail(path: string, ps: seq<RouteParam>, from: nat)
    requires WellFormedFrom(path, ps, from) && ps != []
    ensures WellFormedFrom(path, ps[1..], End(ps[0]))
  {
    var rest := ps[1..];
    forall k | 0 <= k < |rest|
      ensures IsPlaceholderAt(path, rest[k]) && End(ps[0]) <= rest[k].startIndex
    {
      assert rest[k] == ps[k + 1];
    }
    forall i, j | 0 <= i < j < |rest| ensures End(rest[i]) <= rest[j].startIndex {
      assert rest[i] == ps[i + 1] && rest[j] == ps[j + 1];
    }
  }

  /**
   * The converse of ParseRoute's contract: a list of closed, ordered placeholders that
   * misses none is exactly what the scan returns.
   */
  lemma {:induction false} ParseFromUnique(path: string, from: nat, ps: seq<RouteParam>)
    requires from <= |path|
    requires WellFormedFrom(path, ps, from) && CompleteFrom(path, ps, from)
    ensures ps == ParseFrom(path, from)
    decreases |ps|
  {
    if ps == [] {
      UniqueWhenEmpty(path, from);
    } else {
      var p, rest := ps[0], ps[1..];
      assert ps == [p] + rest;
      CompleteTail(path, p, rest, from);
      ParseFromStep(path, from, p);
      WellFormedTail(path, ps, from);
      ParseFromUnique(path, End(p), rest);
    }
  }

  /** A template's placeholder list is determined by the two halves of ParseRoute's contract. */
  lemma ParseRouteUnique(path: string, ps: seq<RouteParam>)
    ensures ps == ParseRoute(path) <==> WellFormedFrom(path, ps, 0) && CompleteFrom(path, ps, 0)
  {
    if WellFormedFrom(path, ps, 0) && CompleteFrom(path, ps, 0) {
      ParseFromUnique(path, 0, ps);
    }
  }

  /** A template with no "{" has no placeholders. */
  lemma NoBraceNoParams(path: string)
    requires '{' !in path
    ensures ParseRoute(path) == []
  {
    assert IndexOfFrom(path, '{', 0).None?;
  }
}

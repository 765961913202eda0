/**
 * The API's URL table (src/sa_api/urls.py): an ordered list of anchored
 * regular expressions, each naming a view and capturing keyword arguments.
 * Django tries them in order and dispatches to the first that matches.
 *
 * Every pattern is a run of `/`-terminated segments, each a literal, a
 * `[^/]+` capture or a `\d+` capture, between `^` and `$`. Python's `$`
 * also matches just before a newline that ends the string, so a path with
 * one trailing newline resolves like the path without it.
 */
module ApiRoutes {
  import opened Wrappers
  import opened Text

  datatype View =
    | DataSetCollectionView
    | PlaceCollectionView
    | ActivityView
    | DataSetInstanceView
    | PlaceInstanceView
    | SubmissionCollectionView
    | SubmissionInstanceView

  /** One segment of a pattern. */
  datatype Part =
    | Lit(text: string)      // the literal segment
    | Word(name: string)     // (?P<name>[^/]+)
    | Digits(name: string)   // (?P<name>\d+)

  datatype Route = Route(parts: seq<Part>, view: View, name: string)

  const Table: seq<Route> := [
    Route([Lit("datasets")], DataSetCollectionView, "dataset_collection"),
    Route([Lit("datasets"), Word("dataset__owner__username"), Word("dataset__short_name"), Lit("places")],
          PlaceCollectionView, "place_collection_by_dataset"),
    Route([Lit("datasets"), Word("data__dataset__owner__username"), Word("data__dataset__short_name"), Lit("activity")],
          ActivityView, "activity_collection_by_dataset"),
    Route([Lit("datasets"), Word("owner__username"), Word("short_name")], DataSetInstanceView, "dataset_instance_by_user"),
    Route([Lit("datasets"), Digits("pk")], DataSetInstanceView, "dataset_instance"),
    Route([Lit("places")], PlaceCollectionView, "place_collection"),
    Route([Lit("places"), Digits("pk")], PlaceInstanceView, "place_instance"),
    Route([Lit("places"), Digits("place_id"), Word("submission_type")], SubmissionCollectionView, "submission_collection"),
    Route([Lit("places"), Digits("place_id"), Word("submission_type"), Digits("pk")], SubmissionInstanceView, "submission_instance"),
    Route([Lit("activity")], ActivityView, "activity_collection")
  ]

  /** The part of the path that must match up to `$`: one final newline is ignored. */
  function PathBody(path: string): string
  {
    if |path| > 0 && path[|path| - 1] == '\n' then path[..|path| - 1] else path
  }

  /** The segments of a path that ends with `/`, as every pattern requires. */
  function Segments(path: string): Option<seq<string>>
  {
    var body := PathBody(path);
    if |body| > 0 && body[|body| - 1] == '/' then Some(Split(body[..|body| - 1], '/')) else None
  }

  /** A segment (which never holds `/`) matches a part. */
  predicate PartMatches(part: Part, segment: string)
  {
    match part
    case Lit(text) => segment == text
    case Word(_) => segment != ""
    case Digits(_) => IsDigits(segment)
  }

  /** The keyword arguments of the segments matching the parts, if they all match. */
  function MatchParts(parts: seq<Part>, segments: seq<string>): Option<map<string, string>>
  {
    if |parts| != |segments| then None
    else if parts == [] then Some(map[])
    else if !PartMatches(parts[0], segments[0]) then None
    else
      match MatchParts(parts[1..], segments[1..])
      case None => None
      case Some(kwargs) => Some(if parts[0].Lit? then kwargs else kwargs[parts[0].name := segments[0]])
  }

  function Match(route: Route, path: string): Option<map<string, string>>
  {
    match Segments(path)
    case None => None
    case Some(segments) => MatchParts(route.parts, segments)
  }

  datatype Resolved = Resolved(view: View, name: string, kwargs: map<string, string>)

  function FirstMatch(routes: seq<Route>, path: string): Option<Resolved>
  {
    if routes == [] then None
    else
      match Match(routes[0], path)
      case Some(kwargs) => Some(Resolved(routes[0].view, routes[0].name, kwargs))
      case None => FirstMatch(routes[1..], path)
  }

  /** Django's `resolve` over the table. */
  function Resolve(path: string): Option<Resolved>
  {
    FirstMatch(Table, path)
  }

  /** The path whose segments are these, each followed by `/`. */
  function UrlPath(segments: seq<string>): string
  {
    Join(segments, '/') + "/"
  }

  predicate SlashFree(segments: seq<string>)
  {
    forall k :: 0 <= k < |segments| ==> '/' !in segments[k]
  }

  /** Every path ending in `/` is the path of its segments, which hold no `/`. */
  lemma SegmentsOfPath(path: string)
    ensures Segments(path).Some? ==> SlashFree(Segments(path).value) && |Segments(path).value| >= 1
    ensures Segments(path).Some? ==> UrlPath(Segments(path).value) == PathBody(path)
  {
  }

  /** The path of slash-free segments splits back into those segments. */
  lemma UrlPathSegments(segments: seq<string>)
    requires |segments| >= 1 && SlashFree(segments)
    ensures Segments(UrlPath(segments)) == Some(segments)
  {
    var path := UrlPath(segments);
    assert path[..|path| - 1] == Join(segments, '/');
    SplitJoin(segments, '/');
  }

  /**
   * The parts match exactly when there are as many segments as parts and
   * each matches its part; every capture is then bound, and every bound
   * name holds the segment of a capture of that name.
   */
  lemma {:induction false} MatchPartsFacts(parts: seq<Part>, segments: seq<string>)
    ensures MatchParts(parts, segments).Some? <==>
      |parts| == |segments| && forall k :: 0 <= k < |parts| ==> PartMatches(parts[k], segments[k])
    ensures MatchParts(parts, segments).Some? ==>
      forall k :: 0 <= k < |parts| && !parts[k].Lit? ==> parts[k].name in MatchParts(parts, segments).value
    ensures MatchParts(parts, segments).Some? ==>
      var kwargs := MatchParts(parts, segments).value;
      forall n :: n in kwargs ==>
        exists k :: 0 <= k < |parts| && !parts[k].Lit? && parts[k].name == n && kwargs[n] == segments[k]
  {
    if |parts| == |segments| && parts != [] {
      MatchPartsFacts(parts[1..], segments[1..]);
      var m := MatchParts(parts, segments);
      if m.Some? {
        var rest := MatchParts(parts[1..], segments[1..]).value;
        var kwargs := m.value;
        forall n | n in kwargs
          ensures exists k :: 0 <= k < |parts| && !parts[k].Lit? && parts[k].name == n && kwargs[n] == segments[k]
        {
          if !parts[0].Lit? && n == parts[0].name {
            assert kwargs[n] == segments[0];
          } else {
            var k :| 0 <= k < |parts| - 1 && !parts[1..][k].Lit? && parts[1..][k].name == n && rest[n] == segments[1..][k];
            assert parts[k + 1] == parts[1..][k];
          }
        }
        forall k | 0 <= k < |parts| && !parts[k].Lit?
          ensures parts[k].name in kwargs
        {
          if k > 0 {
            assert parts[k] == parts[1..][k - 1];
          }
        }
      } else {
        assert !PartMatches(parts[0], segments[0]) || MatchParts(parts[1..], segments[1..]).None?;
      }
    }
  }

  // ---------------------------------------------------------------------------
  // Disjointness: no path matches two entries of the table.

  /** Two patterns of different lengths, or with different literals at one position. */
  predicate Clash(p: seq<Part>, q: seq<Part>)
  {
    |p| != |q| || LitClash(p, q)
  }

  predicate LitClash(p: seq<Part>, q: seq<Part>)
  {
    |p| > 0 && |q| > 0 &&
    ((p[0].Lit? && q[0].Lit? && p[0].text != q[0].text) || LitClash(p[1..], q[1..]))
  }

  /** Entry `i` clashes with every entry from `j` on. */
  predicate RowClashes(i: nat, j: nat)
    requires i < |Table|
    decreases |Table| - j
  {
    j >= |Table| || (Clash(Table[i].parts, Table[j].parts) && RowClashes(i, j + 1))
  }

  /** Every entry from `i` on clashes with every later entry. */
  predicate ClashesFrom(i: nat)
    decreases |Table| - i
  {
    i >= |Table| || (RowClashes(i, i + 1) && ClashesFrom(i + 1))
  }

  lemma {:induction false} LitClashExcludes(p: seq<Part>, q: seq<Part>, segments: seq<string>)
    requires LitClash(p, q)
    ensures MatchParts(p, segments).None? || MatchParts(q, segments).None?
  {
    if |segments| > 0 && !(p[0].Lit? && q[0].Lit? && p[0].text != q[0].text) {
      LitClashExcludes(p[1..], q[1..], segments[1..]);
    }
  }

  /** Clashing patterns never both match. */
  lemma ClashExcludes(p: seq<Part>, q: seq<Part>, segments: seq<string>)
    requires Clash(p, q)
    ensures MatchParts(p, segments).None? || MatchParts(q, segments).None?
  {
    MatchPartsFacts(p, segments);
    MatchPartsFacts(q, segments);
    if |p| == |q| {
      LitClashExcludes(p, q, segments);
    }
  }

  lemma {:induction false} RowClashesAll(i: nat, j: nat)
    requires i < |Table| && RowClashes(i, j)
    ensures forall k :: j <= k < |Table| ==> Clash(Table[i].parts, Table[k].parts)
    decreases |Table| - j
  {
    if j < |Table| {
      RowClashesAll(i, j + 1);
    }
  }

  lemma {:induction false} ClashesFromAll(i: nat)
    requires ClashesFrom(i)
    ensures forall a, b :: i <= a < b < |Table| ==> Clash(Table[a].parts, Table[b].parts)
    decreases |Table| - i
  {
    if i < |Table| {
      RowClashesAll(i, i + 1);
      ClashesFromAll(i + 1);
    }
  }

  /** Any two entries of the table are told apart by length or by a literal segment. */
  lemma TableClashes()
    ensures forall i, j :: 0 <= i < j < |Table| ==> Clash(Table[i].parts, Table[j].parts)
  {
    assert ClashesFrom(0);
    ClashesFromAll(0);
  }

  /** No path matches two entries of the table, so their order does not matter. */
  lemma TableDisjoint(path: string, i: nat, j: nat)
    requires i < |Table| && j < |Table| && i != j
    ensures Match(Table[i], path).None? || Match(Table[j], path).None?
  {
    TableClashes();
    if Segments(path).Some? {
      if i < j {
        ClashExcludes(Table[i].parts, Table[j].parts, Segments(path).value);
      } else {
        ClashExcludes(Table[j].parts, Table[i].parts, Segments(path).value);
      }
    }
  }

  // ---------------------------------------------------------------------------
  // Resolution.

  /** The first entry that matches decides; an entry that is the only match is the one chosen. */
  lemma {:induction false} FirstMatchOnly(routes: seq<Route>, path: string, i: nat)
    requires i < |routes| && Match(routes[i], path).Some?
    requires forall j :: 0 <= j < |routes| && j != i ==> Match(routes[j], path).None?
    ensures FirstMatch(routes, path) == Some(Resolved(routes[i].view, routes[i].name, Match(routes[i], path).value))
  {
    if i > 0 {
      forall j | 0 <= j < |routes| - 1 && j != i - 1
        ensures Match(routes[1..][j], path).None?
      {
        assert routes[1..][j] == routes[j + 1];
      }
      FirstMatchOnly(routes[1..], path, i - 1);
    }
  }

  lemma {:induction false} FirstMatchNone(routes: seq<Route>, path: string)
    ensures FirstMatch(routes, path).None? <==> forall i :: 0 <= i < |routes| ==> Match(routes[i], path).None?
    ensures FirstMatch(routes, path).Some? ==>
      exists i :: 0 <= i < |routes| && Match(routes[i], path) == Some(FirstMatch(routes, path).value.kwargs) &&
        FirstMatch(routes, path).value.view == routes[i].view && FirstMatch(routes, path).value.name == routes[i].name
  {
    if routes != [] {
      FirstMatchNone(routes[1..], path);
      if Match(routes[0], path).None? {
        forall i | 0 < i < |routes|
          ensures routes[i] == routes[1..][i - 1]
        {
        }
        if FirstMatch(routes, path).Some? {
          var r := FirstMatch(routes[1..], path).value;
          var i :| 0 <= i < |routes| - 1 && Match(routes[1..][i], path) == Some(r.kwargs) &&
            r.view == routes[1..][i].view && r.name == routes[1..][i].name;
          assert routes[1..][i] == routes[i + 1];
        }
      }
    }
  }

  /**
   * A path that an entry matches resolves to that entry: its view, its
   * route name and the keyword arguments it captured, wherever the entry
   * stands in the table.
   */
  lemma ResolveMatches(path: string, i: nat)
    requires i < |Table| && Match(Table[i], path).Some?
    ensures Resolve(path) == Some(Resolved(Table[i].view, Table[i].name, Match(Table[i], path).value))
  {
    forall j | 0 <= j < |Table| && j != i
      ensures Match(Table[j], path).None?
    {
      TableDisjoint(path, i, j);
    }
    FirstMatchOnly(Table, path, i);
  }

  /** A path resolves exactly when some entry matches it, and then to what one entry captured. */
  lemma ResolveNone(path: string)
    ensures Resolve(path).None? <==> forall i :: 0 <= i < |Table| ==> Match(Table[i], path).None?
    ensures Resolve(path).Some? ==>
      exists i :: 0 <= i < |Table| && Match(Table[i], path) == Some(Resolve(path).value.kwargs) &&
        Resolve(path).value.view == Table[i].view && Resolve(path).value.name == Table[i].name
  {
    FirstMatchNone(Table, path);
  }

  /** Numeric keyword arguments. */
  predicate NumericName(name: string)
  {
    name == "pk" || name == "place_id"
  }

  /** No `[^/]+` capture from position `j` on is named `pk` or `place_id`. */
  predicate NoNumericWordsFrom(parts: seq<Part>, j: nat)
    decreases |parts| - j
  {
    j >= |parts| || (!(parts[j].Word? && NumericName(parts[j].name)) && NoNumericWordsFrom(parts, j + 1))
  }

  /** The shape every entry has: one to four segments, the first a literal, `pk` and `place_id` only as `\d+`. */
  predicate EntryShape(parts: seq<Part>)
  {
    1 <= |parts| <= 4 && parts[0].Lit? && NoNumericWordsFrom(parts, 0)
  }

  predicate ShapedFrom(i: nat)
    decreases |Table| - i
  {
    i >= |Table| || (EntryShape(Table[i].parts) && ShapedFrom(i + 1))
  }

  lemma {:induction false} ShapedFromAll(i: nat)
    requires ShapedFrom(i)
    ensures forall k :: i <= k < |Table| ==> EntryShape(Table[k].parts)
    decreases |Table| - i
  {
    if i < |Table| {
      ShapedFromAll(i + 1);
    }
  }

  lemma TableShape()
    ensures forall i :: 0 <= i < |Table| ==> EntryShape(Table[i].parts)
  {
    assert ShapedFrom(|Table|);
    assert ShapedFrom(9);
    assert ShapedFrom(8);
    assert ShapedFrom(7);
    assert ShapedFrom(6);
    assert ShapedFrom(5);
    assert ShapedFrom(4);
    assert ShapedFrom(3);
    assert ShapedFrom(2);
    assert ShapedFrom(1);
    assert ShapedFrom(0);
    ShapedFromAll(0);
  }

  lemma {:induction false} NoNumericWordsAt(parts: seq<Part>, j: nat, k: nat)
    requires NoNumericWordsFrom(parts, j) && j <= k < |parts|
    ensures !(parts[k].Word? && NumericName(parts[k].name))
    decreases k - j
  {
    if j < k {
      NoNumericWordsAt(parts, j + 1, k);
    }
  }

  /**
   * Every keyword argument a resolved path carries is one whole, non-empty
   * segment of the path, free of `/`; `pk` and `place_id` are always
   * decimal digits.
   */
  lemma CapturesAreSegments(path: string)
    requires Resolve(path).Some?
    ensures var kwargs := Resolve(path).value.kwargs;
      forall n :: n in kwargs ==> kwargs[n] != "" && '/' !in kwargs[n] && (NumericName(n) ==> IsDigits(kwargs[n]))
  {
    ResolveNone(path);
    var kwargs := Resolve(path).value.kwargs;
    var i :| 0 <= i < |Table| && Match(Table[i], path) == Some(kwargs);
    SegmentsOfPath(path);
    TableShape();
    CapturesOfShapedEntry(Table[i].parts, Segments(path).value);
  }

  /** What an entry of that shape captures from slash-free segments. */
  lemma CapturesOfShapedEntry(parts: seq<Part>, segments: seq<string>)
    requires MatchParts(parts, segments).Some? && SlashFree(segments) && NoNumericWordsFrom(parts, 0)
    ensures var kwargs := MatchParts(parts, segments).value;
      forall n :: n in kwargs ==> kwargs[n] != "" && '/' !in kwargs[n] && (NumericName(n) ==> IsDigits(kwargs[n]))
  {
    var kwargs := MatchParts(parts, segments).value;
    MatchPartsFacts(parts, segments);
    forall n | n in kwargs
      ensures kwargs[n] != "" && '/' !in kwargs[n] && (NumericName(n) ==> IsDigits(kwargs[n]))
    {
      var k :| 0 <= k < |parts| && !parts[k].Lit? && parts[k].name == n && kwargs[n] == segments[k];
      assert PartMatches(parts[k], segments[k]);
      NoNumericWordsAt(parts, 0, k);
    }
  }

  // ---------------------------------------------------------------------------
  // What each view is reached by.

  // The keyword arguments each entry captures from a path of its shape.

  lemma PlacesByDatasetCaptures(owner: string, dataset: string)
    requires owner != "" && dataset != ""
    ensures MatchParts(Table[1].parts, ["datasets", owner, dataset, "places"]) ==
      Some(map["dataset__owner__username" := owner, "dataset__short_name" := dataset])
  {
    var parts := Table[1].parts;
    var segments := ["datasets", owner, dataset, "places"];
    assert MatchParts(parts[3..], segments[3..]) == Some(map[]);
    assert MatchParts(parts[2..], segments[2..]) == Some(map["dataset__short_name" := dataset]);
    assert MatchParts(parts[1..], segments[1..]) == Some(map["dataset__short_name" := dataset, "dataset__owner__username" := owner]);
    assert map["dataset__short_name" := dataset, "dataset__owner__username" := owner]
        == map["dataset__owner__username" := owner, "dataset__short_name" := dataset];
  }

  lemma ActivityByDatasetCaptures(owner: string, dataset: string)
    requires owner != "" && dataset != ""
    ensures MatchParts(Table[2].parts, ["datasets", owner, dataset, "activity"]) ==
      Some(map["data__dataset__owner__username" := owner, "data__dataset__short_name" := dataset])
  {
    var parts := Table[2].parts;
    var segments := ["datasets", owner, dataset, "activity"];
    assert MatchParts(parts[3..], segments[3..]) == Some(map[]);
    assert MatchParts(parts[2..], segments[2..]) == Some(map["data__dataset__short_name" := dataset]);
    assert MatchParts(parts[1..], segments[1..]) == Some(map["data__dataset__short_name" := dataset, "data__dataset__owner__username" := owner]);
    assert map["data__dataset__short_name" := dataset, "data__dataset__owner__username" := owner]
        == map["data__dataset__owner__username" := owner, "data__dataset__short_name" := dataset];
  }

  lemma DataSetByUserCaptures(owner: string, dataset: string)
    requires owner != "" && dataset != ""
    ensures MatchParts(Table[3].parts, ["datasets", owner, dataset]) == Some(map["owner__username" := owner, "short_name" := dataset])
  {
    var parts := Table[3].parts;
    var segments := ["datasets", owner, dataset];
    assert MatchParts(parts[2..], segments[2..]) == Some(map["short_name" := dataset]);
    assert MatchParts(parts[1..], segments[1..]) == Some(map["short_name" := dataset, "owner__username" := owner]);
    assert map["short_name" := dataset, "owner__username" := owner] == map["owner__username" := owner, "short_name" := dataset];
  }

  lemma KeyCaptures(i: nat, head: string, pk: string)
    requires i < |Table| && Table[i].parts == [Lit(head), Digits("pk")] && IsDigits(pk)
    ensures MatchParts(Table[i].parts, [head, pk]) == Some(map["pk" := pk])
  {
    var parts := Table[i].parts;
    var segments := [head, pk];
    assert MatchParts(parts[1..], segments[1..]) == Some(map["pk" := pk]);
  }

  lemma SubmissionCollectionCaptures(placeId: string, submissionType: string)
    requires IsDigits(placeId) && submissionType != ""
    ensures MatchParts(Table[7].parts, ["places", placeId, submissionType]) ==
      Some(map["place_id" := placeId, "submission_type" := submissionType])
  {
    var parts := Table[7].parts;
    var segments := ["places", placeId, submissionType];
    assert MatchParts(parts[2..], segments[2..]) == Some(map["submission_type" := submissionType]);
    assert MatchParts(parts[1..], segments[1..]) == Some(map["submission_type" := submissionType, "place_id" := placeId]);
    assert map["submission_type" := submissionType, "place_id" := placeId]
        == map["place_id" := placeId, "submission_type" := submissionType];
  }

  lemma SubmissionInstanceCaptures(placeId: string, submissionType: string, pk: string)
    requires IsDigits(placeId) && submissionType != "" && IsDigits(pk)
    ensures MatchParts(Table[8].parts, ["places", placeId, submissionType, pk]) ==
      Some(map["place_id" := placeId, "submission_type" := submissionType, "pk" := pk])
  {
    var parts := Table[8].parts;
    var segments := ["places", placeId, submissionType, pk];
    assert MatchParts(parts[3..], segments[3..]) == Some(map["pk" := pk]);
    assert MatchParts(parts[2..], segments[2..]) == Some(map["pk" := pk, "submission_type" := submissionType]);
    assert MatchParts(parts[1..], segments[1..]) == Some(map["pk" := pk, "submission_type" := submissionType, "place_id" := placeId]);
    assert map["pk" := pk, "submission_type" := submissionType, "place_id" := placeId]
        == map["place_id" := placeId, "submission_type" := submissionType, "pk" := pk];
  }

  /** The path of a single literal segment resolves to the entry made of that literal. */
  lemma SingleLiteralResolves(i: nat, text: string)
    requires i < |Table| && Table[i].parts == [Lit(text)] && '/' !in text
    ensures Resolve(UrlPath([text])) == Some(Resolved(Table[i].view, Table[i].name, map[]))
  {
    UrlPathSegments([text]);
    assert MatchParts(Table[i].parts, [text]) == Some(map[]);
    ResolveMatches(UrlPath([text]), i);
  }

  lemma DataSetCollectionRoute()
    ensures Resolve(UrlPath(["datasets"])) == Some(Resolved(DataSetCollectionView, "dataset_collection", map[]))
  {
    SingleLiteralResolves(0, "datasets");
  }

  /** Places are listed under a dataset, with the owner and dataset as filters, and across all datasets. */
  lemma PlaceCollectionRoutes(owner: string, dataset: string)
    requires owner != "" && dataset != "" && '/' !in owner && '/' !in dataset
    ensures Resolve(UrlPath(["datasets", owner, dataset, "places"])) ==
      Some(Resolved(PlaceCollectionView, "place_collection_by_dataset",
        map["dataset__owner__username" := owner, "dataset__short_name" := dataset]))
    ensures Resolve(UrlPath(["places"])) == Some(Resolved(PlaceCollectionView, "place_collection", map[]))
  {
    var segments := ["datasets", owner, dataset, "places"];
    UrlPathSegments(segments);
    PlacesByDatasetCaptures(owner, dataset);
    ResolveMatches(UrlPath(segments), 1);
    SingleLiteralResolves(5, "places");
  }

  /** Activity is listed under a dataset, filtered through the action's data, and across all datasets. */
  lemma ActivityRoutes(owner: string, dataset: string)
    requires owner != "" && dataset != "" && '/' !in owner && '/' !in dataset
    ensures Resolve(UrlPath(["datasets", owner, dataset, "activity"])) ==
      Some(Resolved(ActivityView, "activity_collection_by_dataset",
        map["data__dataset__owner__username" := owner, "data__dataset__short_name" := dataset]))
    ensures Resolve(UrlPath(["activity"])) == Some(Resolved(ActivityView, "activity_collection", map[]))
  {
    var segments := ["datasets", owner, dataset, "activity"];
    UrlPathSegments(segments);
    ActivityByDatasetCaptures(owner, dataset);
    ResolveMatches(UrlPath(segments), 2);
    SingleLiteralResolves(9, "activity");
  }

  lemma DigitsSlashFree(s: string)
    requires IsDigits(s)
    ensures '/' !in s
  {
    forall c | c in s ensures c != '/' {
      var k :| 0 <= k < |s| && s[k] == c;
      assert IsDigit(s[k]);
    }
  }

  /**
   * A dataset is reached by owner and short name, or by its numeric key;
   * the view gets either `owner__username` and `short_name` or `pk`.
   */
  lemma DataSetInstanceRoutes(owner: string, dataset: string, pk: string)
    requires owner != "" && dataset != "" && '/' !in owner && '/' !in dataset && IsDigits(pk)
    ensures Resolve(UrlPath(["datasets", owner, dataset])) ==
      Some(Resolved(DataSetInstanceView, "dataset_instance_by_user", map["owner__username" := owner, "short_name" := dataset]))
    ensures Resolve(UrlPath(["datasets", pk])) == Some(Resolved(DataSetInstanceView, "dataset_instance", map["pk" := pk]))
  {
    var byUser := ["datasets", owner, dataset];
    UrlPathSegments(byUser);
    DataSetByUserCaptures(owner, dataset);
    ResolveMatches(UrlPath(byUser), 3);
    DigitsSlashFree(pk);
    var byKey := ["datasets", pk];
    UrlPathSegments(byKey);
    KeyCaptures(4, "datasets", pk);
    ResolveMatches(UrlPath(byKey), 4);
  }

  /** A place, its submissions of one type, and one submission, each by numeric key. */
  lemma PlaceAndSubmissionRoutes(placeId: string, submissionType: string, pk: string)
    requires IsDigits(placeId) && IsDigits(pk) && submissionType != "" && '/' !in submissionType
    ensures Resolve(UrlPath(["places", pk])) == Some(Resolved(PlaceInstanceView, "place_instance", map["pk" := pk]))
    ensures Resolve(UrlPath(["places", placeId, submissionType])) ==
      Some(Resolved(SubmissionCollectionView, "submission_collection",
        map["place_id" := placeId, "submission_type" := submissionType]))
    ensures Resolve(UrlPath(["places", placeId, submissionType, pk])) ==
      Some(Resolved(SubmissionInstanceView, "submission_instance",
        map["place_id" := placeId, "submission_type" := submissionType, "pk" := pk]))
  {
    DigitsSlashFree(placeId);
    DigitsSlashFree(pk);
    var place := ["places", pk];
    UrlPathSegments(place);
    KeyCaptures(6, "places", pk);
    ResolveMatches(UrlPath(place), 6);
    var collection := ["places", placeId, submissionType];
    UrlPathSegments(collection);
    SubmissionCollectionCaptures(placeId, submissionType);
    ResolveMatches(UrlPath(collection), 7);
    var instance := ["places", placeId, submissionType, pk];
    UrlPathSegments(instance);
    SubmissionInstanceCaptures(placeId, submissionType, pk);
    ResolveMatches(UrlPath(instance), 8);
  }

  // ---------------------------------------------------------------------------
  // Paths that do not resolve, and the trailing newline.

  /** No entry has more than four segments, so a submission path under a dataset does not resolve. */
  lemma DatasetScopedSubmissionUnrouted(owner: string, dataset: string, placeId: string, submissionType: string)
    requires '/' !in owner && '/' !in dataset && '/' !in placeId && '/' !in submissionType
    ensures Resolve(UrlPath(["datasets", owner, dataset, "places", placeId, submissionType])).None?
  {
    var segments := ["datasets", owner, dataset, "places", placeId, submissionType];
    UrlPathSegments(segments);
    TableShape();
    forall i | 0 <= i < |Table|
      ensures Match(Table[i], UrlPath(segments)).None?
    {
      MatchPartsFacts(Table[i].parts, segments);
    }
    ResolveNone(UrlPath(segments));
  }

  lemma {:induction false} FirstMatchSameBody(routes: seq<Route>, path: string, other: string)
    requires Segments(path) == Segments(other)
    ensures FirstMatch(routes, path) == FirstMatch(routes, other)
  {
    if routes != [] {
      FirstMatchSameBody(routes[1..], path, other);
    }
  }

  /** One trailing newline resolves like none; a second one makes the path fail to resolve. */
  lemma TrailingNewline(path: string)
    requires path == [] || path[|path| - 1] != '\n'
    ensures Resolve(path + "\n") == Resolve(path)
    ensures Resolve(path + "\n\n").None?
  {
    assert PathBody(path + "\n") == path;
    FirstMatchSameBody(Table, path + "\n", path);
    assert PathBody(path + "\n\n") == path + "\n";
    assert Segments(path + "\n\n").None?;
    FirstMatchNone(Table, path + "\n\n");
  }
}

/**
 * The string logic of the front-end views (src/sa_web/views.py): the API
 * resource URI the proxy forwards to, and the check that accepts a
 * default place type from the URL only when it names a configured type,
 * ignoring case.
 */
module WebViews {
  import opened Text

  /** `make_resource_uri`: slashes trimmed from the parts, then `root/datasets/dataset/resource/`. */
  function MakeResourceUri(dataset: string, resource: string, root: string): string
  {
    StripRight(root, IsSlash) + "/datasets/" + Strip(dataset, IsSlash) + "/" + Strip(resource, IsSlash) + "/"
  }

  /** The URI starts with the root, without its trailing slashes, then `/datasets/`, and ends with a slash. */
  lemma ResourceUriShape(dataset: string, resource: string, root: string)
    ensures var uri := MakeResourceUri(dataset, resource, root); uri[|uri| - 1] == '/'
    ensures StripRight(root, IsSlash) + "/datasets/" <= MakeResourceUri(dataset, resource, root)
  {
    UriShape(StripRight(root, IsSlash), Strip(dataset, IsSlash), Strip(resource, IsSlash));
  }

  lemma UriShape(root: string, dataset: string, resource: string)
    ensures var uri := root + "/datasets/" + dataset + "/" + resource + "/";
      uri[|uri| - 1] == '/' && root + "/datasets/" <= uri
  {
  }

  /** The parts name the dataset and resource without their own leading or trailing slashes. */
  lemma ResourceUriPartsUnpadded(dataset: string, resource: string)
    ensures var d := Strip(dataset, IsSlash);
      d == [] || (d[0] != '/' && d[|d| - 1] != '/')
    ensures var r := Strip(resource, IsSlash);
      r == [] || (r[0] != '/' && r[|r| - 1] != '/')
  {
    StripFacts(dataset, IsSlash);
    StripFacts(resource, IsSlash);
  }

  /** Leading and trailing slashes on the dataset and resource do not change the URI. */
  lemma SlashesIgnored(dataset: string, resource: string, root: string, i: nat, j: nat, k: nat, l: nat)
    ensures MakeResourceUri(Repeat('/', i) + dataset + Repeat('/', j), Repeat('/', k) + resource + Repeat('/', l), root)
         == MakeResourceUri(dataset, resource, root)
  {
    StripIgnoresPadding('/', i, dataset, j, IsSlash);
    StripIgnoresPadding('/', k, resource, l, IsSlash);
  }

  /** Trailing slashes on the root do not change the URI. */
  lemma RootSlashesIgnored(dataset: string, resource: string, root: string, n: nat)
    ensures MakeResourceUri(dataset, resource, root + Repeat('/', n)) == MakeResourceUri(dataset, resource, root)
  {
    StripRightPadding('/', n, root, IsSlash);
  }

  /** `("/a/", "/b/")` builds the same URI as `("a", "b")`. */
  lemma ResourceUriPaddedExample(root: string)
    ensures MakeResourceUri("/a/", "/b/", root + "/") == MakeResourceUri("a", "b", root)
  {
    assert Repeat('/', 1) + "a" + Repeat('/', 1) == "/a/";
    assert Repeat('/', 1) + "b" + Repeat('/', 1) == "/b/";
    assert root + Repeat('/', 1) == root + "/";
    SlashesIgnored("a", "b", root + "/", 1, 1, 1, 1);
    RootSlashesIgnored("a", "b", root, 1);
  }

  /**
   * The place type handed to the page: the requested one, in its own
   * casing, when its lower-case form is the lower-case form of a
   * configured type, and the empty string otherwise.
   */
  function ValidatedPlaceType(requested: string, placeTypes: seq<string>): (r: string)
    ensures r == requested || r == ""
  {
    var lowerPlaceTypes := seq(|placeTypes|, i requires 0 <= i < |placeTypes| => Lower(placeTypes[i]));
    if Lower(requested) in lowerPlaceTypes then requested else ""
  }

  /** The requested type is kept exactly when some configured type matches it ignoring case. */
  lemma PlaceTypeAccepted(requested: string, placeTypes: seq<string>)
    ensures (exists t :: t in placeTypes && Lower(t) == Lower(requested)) ==> ValidatedPlaceType(requested, placeTypes) == requested
    ensures !(exists t :: t in placeTypes && Lower(t) == Lower(requested)) ==> ValidatedPlaceType(requested, placeTypes) == ""
  {
    var lowerPlaceTypes := seq(|placeTypes|, i requires 0 <= i < |placeTypes| => Lower(placeTypes[i]));
    if Lower(requested) in lowerPlaceTypes {
      var i :| 0 <= i < |lowerPlaceTypes| && lowerPlaceTypes[i] == Lower(requested);
      assert placeTypes[i] in placeTypes && Lower(placeTypes[i]) == Lower(requested);
    } else {
      forall t | t in placeTypes
        ensures Lower(t) != Lower(requested)
      {
        var i :| 0 <= i < |placeTypes| && placeTypes[i] == t;
        assert lowerPlaceTypes[i] == Lower(t);
      }
    }
  }

  /** The check does not depend on the casing of the request, and `Park` is accepted when `park` is configured. */
  lemma PlaceTypeCaseInsensitive(requested: string, other: string, placeTypes: seq<string>)
    requires Lower(requested) == Lower(other)
    ensures ValidatedPlaceType(requested, placeTypes) == "" <==> ValidatedPlaceType(other, placeTypes) == ""
  {
    PlaceTypeAccepted(requested, placeTypes);
    PlaceTypeAccepted(other, placeTypes);
  }

  lemma PlaceTypeExample()
    ensures ValidatedPlaceType("Park", ["park", "school"]) == "Park"
    ensures ValidatedPlaceType("pool", ["park", "school"]) == ""
  {
    assert Lower("Park") == "park";
    assert Lower("park") == "park";
    assert Lower("school") == "school";
    assert Lower("pool") == "pool";
    assert "park" in ["park", "school"];
    PlaceTypeAccepted("Park", ["park", "school"]);
    assert "pool"[1] != "park"[1] && |"pool"| != |"school"|;
    PlaceTypeAccepted("pool", ["park", "school"]);
  }
}

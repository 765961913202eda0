/**
 * `init_pages_config` (src/sa_web/views.py): walks the menu configuration
 * and, for every page that is not external and has a url, fetches the page
 * at its absolute URI and puts the content (or the error) into the page.
 *
 * The request's `build_absolute_uri` is a parameter `abs`, and the HTTP
 * GET is an oracle `fetch` from URI to (status, text). Besides the
 * rewritten menu the walk returns the URIs it fetched, in order, so what
 * was and was not fetched can be stated.
 *
 * The Python loop iterates whatever it is given and calls `.get` on each
 * element: a scalar raises TypeError, and an element that is not a dict
 * (a string, a list, a dict's key) raises AttributeError. Both are errors
 * here. The Python rewrites each page dict in place; the walk here returns
 * the rewritten copy, and on an error the partial rewrite is not kept.
 */
module PagesConfig {
  import opened Wrappers
  import opened JsonValue

  const ExternalKey := "external"
  const UrlKey := "url"
  const PagesKey := "pages"
  const SubPagesKey := "sub_pages"
  const ContentKey := "content"
  const StatusKey := "status"
  const ErrorKey := "error"

  /** What the HTTP GET returns: the status code and the body text. */
  datatype Fetched = Fetched(status: int, text: string)

  datatype PageError =
    | NotIterable   // TypeError: iterating a scalar
    | NoGetMethod   // AttributeError: `.get` on something that is not a dict

  /** A result together with the URIs fetched to compute it. */
  datatype Loaded<T> = Loaded(value: T, fetched: seq<string>)

  /** The iteration the Python `for` loop performs over a value. */
  function Elements(j: Json): Result<seq<Json>, PageError>
  {
    match j
    case JList(items) => Ok(items)
    case JDict(fields) => Ok(seq(|fields|, i requires 0 <= i < |fields| => JStr(fields[i].key)))
    case JStr(s) => Ok(seq(|s|, i requires 0 <= i < |s| => JStr([s[i]])))
    case _ => Err(NotIterable)
  }

  /** A page's own rewrite: everything the loop body does before descending into sub-pages. */
  function OwnRewrite(fields: seq<Field>, abs: Json -> string, fetch: string -> Fetched): Loaded<seq<Field>>
  {
    var external := Truthy(GetOr(fields, ExternalKey, JBool(false)));
    var pageUrl := GetOr(fields, UrlKey, JNull);
    var page := Put(Remove(Remove(fields, UrlKey), PagesKey), SubPagesKey, JList([]));
    if external then
      Loaded(Put(Put(page, ExternalKey, JBool(true)), UrlKey, pageUrl), [])
    else if pageUrl != JNull then
      var uri := abs(pageUrl);
      var response := fetch(uri);
      if response.status == 200 then
        Loaded(Put(page, ContentKey, JStr(response.text)), [uri])
      else
        Loaded(Put(Put(Put(page, UrlKey, JStr(uri)), StatusKey, JNum(response.status)), ErrorKey, JStr(response.text)), [uri])
    else
      Loaded(page, [])
  }

  /** The `pages` value that the loop body descends into, when it is truthy. */
  function SubPages(fields: seq<Field>): Option<Json>
  {
    var sub := Get(fields, PagesKey);
    if sub.Some? && Truthy(sub.value) then sub else None
  }

  /** The rewrite of the whole menu. */
  function InitPages(pages: Json, abs: Json -> string, fetch: string -> Fetched): Result<Loaded<Json>, PageError>
    decreases pages, 2
  {
    match Elements(pages)
    case Err(e) => Err(e)
    case Ok(elements) =>
      if pages.JList? then
        match InitPageList(pages.items, abs, fetch)
        case Err(e) => Err(e)
        case Ok(l) => Ok(Loaded(JList(l.value), l.fetched))
      else if elements == [] then Ok(Loaded(pages, []))
      else Err(NoGetMethod)
  }

  /** The pages of a list, rewritten left to right; the first error stops the walk. */
  function InitPageList(items: seq<Json>, abs: Json -> string, fetch: string -> Fetched): Result<Loaded<seq<Json>>, PageError>
    decreases items, 1
  {
    if items == [] then Ok(Loaded([], []))
    else
      match InitPageList(items[..|items| - 1], abs, fetch)
      case Err(e) => Err(e)
      case Ok(done) =>
        match InitPage(items[|items| - 1], abs, fetch)
        case Err(e) => Err(e)
        case Ok(p) => Ok(Loaded(done.value + [p.value], done.fetched + p.fetched))
  }

  /** One page: its own rewrite, then its truthy `pages` rewritten into `sub_pages`. */
  function InitPage(page: Json, abs: Json -> string, fetch: string -> Fetched): Result<Loaded<Json>, PageError>
    decreases page, 0
  {
    if !page.JDict? then Err(NoGetMethod)
    else
      var own := OwnRewrite(page.fields, abs, fetch);
      match SubPages(page.fields)
      case None => Ok(Loaded(JDict(own.value), own.fetched))
      case Some(sub) =>
        GetSmaller(page.fields, PagesKey);
        match InitPages(sub, abs, fetch)
        case Err(e) => Err(e)
        case Ok(s) => Ok(Loaded(JDict(Put(own.value, SubPagesKey, s.value)), own.fetched + s.fetched))
  }

  /** The loop body up to the sub-pages, step by step as the Python performs it. */
  method RewriteOwn(page: seq<Field>, abs: Json -> string, fetch: string -> Fetched)
    returns (own: Loaded<seq<Field>>)
    ensures own == OwnRewrite(page, abs, fetch)
  {
    var fields := page;
    var external := Truthy(GetOr(fields, ExternalKey, JBool(false)));
    var pageUrl := GetOr(fields, UrlKey, JNull);
    fields := Remove(fields, UrlKey);
    fields := Remove(fields, PagesKey);
    fields := Put(fields, SubPagesKey, JList([]));
    var fetched: seq<string> := [];
    if external {
      fields := Put(fields, ExternalKey, JBool(true));
      fields := Put(fields, UrlKey, pageUrl);
    }
    if !external && pageUrl != JNull {
      var uri := abs(pageUrl);
      var response := fetch(uri);
      fetched := [uri];
      if response.status == 200 {
        fields := Put(fields, ContentKey, JStr(response.text));
      } else {
        fields := Put(fields, UrlKey, JStr(uri));
        fields := Put(fields, StatusKey, JNum(response.status));
        fields := Put(fields, ErrorKey, JStr(response.text));
      }
    }
    own := Loaded(fields, fetched);
  }

  /** The walk as the Python performs it: a loop over the pages, recursing into sub-pages. */
  method InitPagesConfig(pages: Json, abs: Json -> string, fetch: string -> Fetched)
    returns (r: Result<Loaded<Json>, PageError>)
    ensures r == InitPages(pages, abs, fetch)
    decreases pages, 1
  {
    if !pages.JList? {
      var elements := Elements(pages);
      if elements.Err? {
        r := Err(elements.error);
      } else {
        r := if elements.value == [] then Ok(Loaded(pages, [])) else Err(NoGetMethod);
      }
      return;
    }
    var items := pages.items;
    var out: seq<Json> := [];
    var fetched: seq<string> := [];
    for i := 0 to |items|
      invariant InitPageList(items[..i], abs, fetch) == Ok(Loaded(out, fetched))
    {
      InitPageListStep(items, i, abs, fetch);
      assert items[i] in items;
      var page := RewritePage(items[i], abs, fetch);
      if page.Err? {
        InitPageListStopsAtError(items, i + 1, abs, fetch);
        return Err(page.error);
      }
      out := out + [page.value.value];
      fetched := fetched + page.value.fetched;
    }
    assert items[..|items|] == items;
    r := Ok(Loaded(JList(out), fetched));
  }

  /** One pass of the loop body. */
  method RewritePage(page: Json, abs: Json -> string, fetch: string -> Fetched)
    returns (r: Result<Loaded<Json>, PageError>)
    ensures r == InitPage(page, abs, fetch)
    decreases page, 0
  {
    if !page.JDict? {
      return Err(NoGetMethod);
    }
    var own := RewriteOwn(page.fields, abs, fetch);
    var fields := own.value;
    var fetched := own.fetched;
    var subPages := GetOr(page.fields, PagesKey, JList([]));
    SubPagesTruthy(page.fields);
    if Truthy(subPages) {
      GetSmaller(page.fields, PagesKey);
      var sub := InitPagesConfig(subPages, abs, fetch);
      if sub.Err? {
        return Err(sub.error);
      }
      fields := Put(fields, SubPagesKey, sub.value.value);
      fetched := fetched + sub.value.fetched;
    }
    r := Ok(Loaded(JDict(fields), fetched));
  }

  /** The loop descends into `page.get("pages", [])` exactly when it is truthy. */
  lemma SubPagesTruthy(fields: seq<Field>)
    ensures var sub := GetOr(fields, PagesKey, JList([]));
      SubPages(fields) == if Truthy(sub) then Some(sub) else None
  {
  }

  /** One more page of the list: the walk so far, then that page. */
  lemma InitPageListStep(items: seq<Json>, i: nat, abs: Json -> string, fetch: string -> Fetched)
    requires i < |items|
    ensures InitPageList(items[..i + 1], abs, fetch) ==
      match InitPageList(items[..i], abs, fetch)
      case Err(e) => Err(e)
      case Ok(done) =>
        match InitPage(items[i], abs, fetch)
        case Err(e) => Err(e)
        case Ok(p) => Ok(Loaded(done.value + [p.value], done.fetched + p.fetched))
  {
    assert items[..i + 1][..i] == items[..i];
    assert items[..i + 1][i] == items[i];
  }

  /** An error on a prefix of the pages is the error of the whole walk. */
  lemma {:induction false} InitPageListStopsAtError(items: seq<Json>, k: nat, abs: Json -> string, fetch: string -> Fetched)
    requires k <= |items|
    requires InitPageList(items[..k], abs, fetch).Err?
    ensures InitPageList(items, abs, fetch) == InitPageList(items[..k], abs, fetch)
    decreases |items| - k
  {
    if k < |items| {
      assert items[..k + 1][..k] == items[..k];
      InitPageListStopsAtError(items, k + 1, abs, fetch);
    } else {
      assert items[..k] == items;
    }
  }

  /** Every page of a rewritten menu, at any depth, has `sub_pages` (a list) and no `pages`. */
  predicate NormalizedPage(page: Json)
    decreases page
  {
    && page.JDict?
    && Get(page.fields, PagesKey).None?
    && Get(page.fields, SubPagesKey).Some?
    && var sub := Get(page.fields, SubPagesKey).value;
      GetSmaller(page.fields, SubPagesKey);
      && sub.JList?
      && forall i :: 0 <= i < |sub.items| ==> NormalizedPage(sub.items[i])
  }

  lemma {:induction false} InitPagesNormalizes(pages: Json, abs: Json -> string, fetch: string -> Fetched)
    requires InitPages(pages, abs, fetch).Ok?
    ensures var menu := InitPages(pages, abs, fetch).value.value;
      menu.JList? ==> forall i :: 0 <= i < |menu.items| ==> NormalizedPage(menu.items[i])
    ensures Truthy(pages) ==> InitPages(pages, abs, fetch).value.value.JList?
    ensures !pages.JList? ==> InitPages(pages, abs, fetch).value.value == pages
    decreases pages, 2
  {
    if pages.JList? {
      InitPageListNormalizes(pages.items, abs, fetch);
    }
  }

  lemma {:induction false} InitPageListNormalizes(items: seq<Json>, abs: Json -> string, fetch: string -> Fetched)
    requires InitPageList(items, abs, fetch).Ok?
    ensures var done := InitPageList(items, abs, fetch).value.value;
      forall i :: 0 <= i < |done| ==> NormalizedPage(done[i])
    decreases items, 1
  {
    if items != [] {
      InitPageListNormalizes(items[..|items| - 1], abs, fetch);
      InitPageNormalizes(items[|items| - 1], abs, fetch);
    }
  }

  /** A page's own rewrite drops `pages` and starts `sub_pages` empty. */
  lemma OwnRewriteNormalizes(fields: seq<Field>, abs: Json -> string, fetch: string -> Fetched)
    ensures Get(OwnRewrite(fields, abs, fetch).value, PagesKey) == None
    ensures Get(OwnRewrite(fields, abs, fetch).value, SubPagesKey) == Some(JList([]))
  {
    var page := Put(Remove(Remove(fields, UrlKey), PagesKey), SubPagesKey, JList([]));
    assert Get(page, PagesKey) == None && Get(page, SubPagesKey) == Some(JList([]));
    var pageUrl := GetOr(fields, UrlKey, JNull);
    if Truthy(GetOr(fields, ExternalKey, JBool(false))) {
      PutKeeps(page, ExternalKey, JBool(true));
      PutKeeps(Put(page, ExternalKey, JBool(true)), UrlKey, pageUrl);
    } else if pageUrl != JNull {
      var uri := abs(pageUrl);
      var response := fetch(uri);
      if response.status == 200 {
        PutKeeps(page, ContentKey, JStr(response.text));
      } else {
        var withUrl := Put(page, UrlKey, JStr(uri));
        PutKeeps(page, UrlKey, JStr(uri));
        PutKeeps(withUrl, StatusKey, JNum(response.status));
        PutKeeps(Put(withUrl, StatusKey, JNum(response.status)), ErrorKey, JStr(response.text));
      }
    }
  }

  /** Putting one of the page keys leaves `pages` and `sub_pages` as they were. */
  lemma PutKeeps(fs: seq<Field>, k: string, v: Json)
    requires k != PagesKey && k != SubPagesKey
    ensures Get(Put(fs, k, v), PagesKey) == Get(fs, PagesKey)
    ensures Get(Put(fs, k, v), SubPagesKey) == Get(fs, SubPagesKey)
  {
  }

  lemma {:induction false} InitPageNormalizes(page: Json, abs: Json -> string, fetch: string -> Fetched)
    requires InitPage(page, abs, fetch).Ok?
    ensures NormalizedPage(InitPage(page, abs, fetch).value.value)
    decreases page, 0
  {
    var own := OwnRewrite(page.fields, abs, fetch);
    OwnRewriteNormalizes(page.fields, abs, fetch);
    match SubPages(page.fields)
    case None =>
      assert InitPage(page, abs, fetch).value.value == JDict(own.value);
    case Some(sub) =>
      GetSmaller(page.fields, PagesKey);
      InitPagesNormalizes(sub, abs, fetch);
      var s := InitPages(sub, abs, fetch).value;
      var fields := Put(own.value, SubPagesKey, s.value);
      assert InitPage(page, abs, fetch).value.value == JDict(fields);
      assert Get(fields, SubPagesKey) == Some(s.value);
      assert Get(fields, PagesKey) == None;
  }

  /** The URIs fetched while rewriting a page's sub-pages. */
  function SubFetched(fields: seq<Field>, abs: Json -> string, fetch: string -> Fetched): seq<string>
  {
    match SubPages(fields)
    case None => []
    case Some(sub) =>
      match InitPages(sub, abs, fetch)
      case Ok(s) => s.fetched
      case Err(_) => []
  }

  /** A rewritten page is its own rewrite with `sub_pages` filled in; its own fetch comes first. */
  lemma InitPageFromOwn(fields: seq<Field>, abs: Json -> string, fetch: string -> Fetched, k: string)
    requires InitPage(JDict(fields), abs, fetch).Ok?
    ensures var p := InitPage(JDict(fields), abs, fetch).value;
      && p.value.JDict?
      && p.fetched == OwnRewrite(fields, abs, fetch).fetched + SubFetched(fields, abs, fetch)
      && (k != SubPagesKey ==> Get(p.value.fields, k) == Get(OwnRewrite(fields, abs, fetch).value, k))
  {
  }

  /** An external page gets `external = True` and its url (None when it had none) back, and is not fetched. */
  lemma ExternalPageNotFetched(fields: seq<Field>, abs: Json -> string, fetch: string -> Fetched)
    requires Truthy(GetOr(fields, ExternalKey, JBool(false)))
    requires InitPage(JDict(fields), abs, fetch).Ok?
    ensures var p := InitPage(JDict(fields), abs, fetch).value;
      && Get(p.value.fields, ExternalKey) == Some(JBool(true))
      && Get(p.value.fields, UrlKey) == Some(GetOr(fields, UrlKey, JNull))
      && p.fetched == SubFetched(fields, abs, fetch)
  {
    InitPageFromOwn(fields, abs, fetch, ExternalKey);
    InitPageFromOwn(fields, abs, fetch, UrlKey);
  }

  /** A page fetched with status 200 gets the text as `content` and loses its `url`. */
  lemma FetchedPageGetsContent(fields: seq<Field>, abs: Json -> string, fetch: string -> Fetched)
    requires !Truthy(GetOr(fields, ExternalKey, JBool(false)))
    requires GetOr(fields, UrlKey, JNull) != JNull
    requires fetch(abs(GetOr(fields, UrlKey, JNull))).status == 200
    requires InitPage(JDict(fields), abs, fetch).Ok?
    ensures var uri := abs(GetOr(fields, UrlKey, JNull));
      var p := InitPage(JDict(fields), abs, fetch).value;
      && Get(p.value.fields, ContentKey) == Some(JStr(fetch(uri).text))
      && Get(p.value.fields, UrlKey) == None
      && p.fetched == [uri] + SubFetched(fields, abs, fetch)
  {
    InitPageFromOwn(fields, abs, fetch, ContentKey);
    InitPageFromOwn(fields, abs, fetch, UrlKey);
  }

  /** A page whose fetch fails gets its absolute `url`, the `status` and the `error` text. */
  lemma FailedPageGetsError(fields: seq<Field>, abs: Json -> string, fetch: string -> Fetched)
    requires !Truthy(GetOr(fields, ExternalKey, JBool(false)))
    requires GetOr(fields, UrlKey, JNull) != JNull
    requires fetch(abs(GetOr(fields, UrlKey, JNull))).status != 200
    requires InitPage(JDict(fields), abs, fetch).Ok?
    ensures var uri := abs(GetOr(fields, UrlKey, JNull));
      var p := InitPage(JDict(fields), abs, fetch).value;
      && Get(p.value.fields, UrlKey) == Some(JStr(uri))
      && Get(p.value.fields, StatusKey) == Some(JNum(fetch(uri).status))
      && Get(p.value.fields, ErrorKey) == Some(JStr(fetch(uri).text))
      && p.fetched == [uri] + SubFetched(fields, abs, fetch)
  {
    InitPageFromOwn(fields, abs, fetch, UrlKey);
    InitPageFromOwn(fields, abs, fetch, StatusKey);
    InitPageFromOwn(fields, abs, fetch, ErrorKey);
  }

  /**
   * A page that is not external and has no url (or a None url) loses the
   * `url` key, is not fetched, and keeps whatever `content`, `status` and
   * `error` it was configured with.
   */
  lemma PageWithoutUrlNotFetched(fields: seq<Field>, abs: Json -> string, fetch: string -> Fetched, k: string)
    requires !Truthy(GetOr(fields, ExternalKey, JBool(false)))
    requires GetOr(fields, UrlKey, JNull) == JNull
    requires k == ContentKey || k == StatusKey || k == ErrorKey
    requires InitPage(JDict(fields), abs, fetch).Ok?
    ensures var p := InitPage(JDict(fields), abs, fetch).value;
      && Get(p.value.fields, UrlKey) == None
      && Get(p.value.fields, k) == Get(fields, k)
      && p.fetched == SubFetched(fields, abs, fetch)
  {
    InitPageFromOwn(fields, abs, fetch, UrlKey);
    InitPageFromOwn(fields, abs, fetch, k);
  }

  /** Keys the walk does not touch keep their values. */
  lemma OtherKeysKept(fields: seq<Field>, abs: Json -> string, fetch: string -> Fetched, k: string)
    requires k != ExternalKey && k != UrlKey && k != PagesKey && k != SubPagesKey
    requires k != ContentKey && k != StatusKey && k != ErrorKey
    requires InitPage(JDict(fields), abs, fetch).Ok?
    ensures Get(InitPage(JDict(fields), abs, fetch).value.value.fields, k) == Get(fields, k)
  {
    InitPageFromOwn(fields, abs, fetch, k);
    var page := Put(Remove(Remove(fields, UrlKey), PagesKey), SubPagesKey, JList([]));
    assert Get(page, k) == Get(fields, k);
    var pageUrl := GetOr(fields, UrlKey, JNull);
    if !Truthy(GetOr(fields, ExternalKey, JBool(false))) && pageUrl != JNull {
      var response := fetch(abs(pageUrl));
      if response.status != 200 {
        var withUrl := Put(page, UrlKey, JStr(abs(pageUrl)));
        assert Get(withUrl, k) == Get(fields, k);
        assert Get(Put(withUrl, StatusKey, JNum(response.status)), k) == Get(fields, k);
      }
    }
  }
}

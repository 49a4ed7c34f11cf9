/**
 The feed builder (src/Torann/PodcastFeed/Manager.php): the channel header,
 resolved from the caller's record and the configured defaults; the list of
 episodes; and `generate`, which renders the `<rss>/<channel>` tree and
 writes the channel's publication date back into the object.
 */
module PodcastManager {
  import opened Wrappers
  import opened Php
  import opened Dates
  import opened Dom
  import PodcastMedia

  // ---------------------------------------------------------------------
  // Header resolution

  /** `getDefault($key, $fallback)`: the configured default for `key`, or
      the fallback when the configuration has none. */
  function GetDefault(defaults: Record, key: string, fallback: Value): (r: Value)
    ensures key in defaults ==> r == defaults[key]
    ensures key !in defaults ==> r == fallback
  {
    ArrayGet(defaults, key, fallback)
  }

  /** The value `getValue` starts from: the caller's, else the default,
      else null. */
  function Lookup(defaults: Record, data: Record, key: string): Value
  {
    ArrayGet(data, key, GetDefault(defaults, key, Null))
  }

  /** `getValue($data, $key)`: the categories are returned as they are; any
      other value comes back as an escaped string. */
  function GetValue(defaults: Record, data: Record, key: string): (r: Value)
    requires key == "categories" || !Lookup(defaults, data, key).Arr?
    ensures key == "categories" ==> r == Lookup(defaults, data, key)
    ensures key != "categories" ==> r.Str?
  {
    var value := Lookup(defaults, data, key);
    if key == "categories" then value else Str(HtmlSpecialChars(value))
  }

  /** Decoding an escaped header value gives back PHP's string form of the
      caller's value, else of the default; "" when neither exists. */
  lemma GetValueDecodes(defaults: Record, data: Record, key: string)
    requires key != "categories" && !Lookup(defaults, data, key).Arr?
    ensures Unescape(GetValue(defaults, data, key).s) == StringOf(Lookup(defaults, data, key))
    ensures key !in data && key !in defaults ==> GetValue(defaults, data, key) == Str("")
  {
    HtmlSpecialCharsDecodes(Lookup(defaults, data, key));
  }

  /** The header fields `setHeader` fills. */
  datatype HeaderKey =
    | Title | PubDate | FeedType | Description | Link | Image | Author | Categories
    | Explicit | Subtitle | Language | Email | Copyright | Locked

  function HeaderName(k: HeaderKey): string
  {
    match k
    case Title => "title"
    case PubDate => "pubDate"
    case FeedType => "feed_type"
    case Description => "description"
    case Link => "link"
    case Image => "image"
    case Author => "author"
    case Categories => "categories"
    case Explicit => "explicit"
    case Subtitle => "subtitle"
    case Language => "language"
    case Email => "email"
    case Copyright => "copyright"
    case Locked => "locked"
  }

  /** The channel's publication date: the escaped text `setHeader` stored,
      or the DateTime `generate` stored in its place. */
  datatype DateField = Unparsed(s: string) | Parsed(t: Timestamp)

  /** The header fields of a Manager. */
  datatype Header = Header(
    title: string,
    pubDate: DateField,
    feedType: string,
    description: string,
    link: string,
    image: string,
    author: string,
    categories: Value,
    explicit: string,
    subtitle: string,
    language: string,
    email: string,
    copyright: string,
    locked: string)

  /** The PHP value held by field `k`; None for a date field holding a DateTime. */
  function Stored(h: Header, k: HeaderKey): Option<Value>
  {
    match k
    case Title => Some(Str(h.title))
    case PubDate => if h.pubDate.Unparsed? then Some(Str(h.pubDate.s)) else None
    case FeedType => Some(Str(h.feedType))
    case Description => Some(Str(h.description))
    case Link => Some(Str(h.link))
    case Image => Some(Str(h.image))
    case Author => Some(Str(h.author))
    case Categories => Some(h.categories)
    case Explicit => Some(Str(h.explicit))
    case Subtitle => Some(Str(h.subtitle))
    case Language => Some(Str(h.language))
    case Email => Some(Str(h.email))
    case Copyright => Some(Str(h.copyright))
    case Locked => Some(Str(h.locked))
  }

  /** Every field but the categories resolves to a scalar: an array there
      would make `htmlspecialchars` throw a TypeError. */
  predicate HeaderScalars(defaults: Record, data: Record)
  {
    && ScalarAt(defaults, data, "title")
    && ScalarAt(defaults, data, "pubDate")
    && ScalarAt(defaults, data, "feed_type")
    && ScalarAt(defaults, data, "description")
    && ScalarAt(defaults, data, "link")
    && ScalarAt(defaults, data, "image")
    && ScalarAt(defaults, data, "author")
    && ScalarAt(defaults, data, "explicit")
    && ScalarAt(defaults, data, "subtitle")
    && ScalarAt(defaults, data, "language")
    && ScalarAt(defaults, data, "email")
    && ScalarAt(defaults, data, "copyright")
    && ScalarAt(defaults, data, "locked")
  }

  predicate ScalarAt(defaults: Record, data: Record, key: string)
  {
    !Lookup(defaults, data, key).Arr?
  }

  /** The header `setHeader($data)` leaves behind. */
  function Resolved(defaults: Record, data: Record): Header
    requires HeaderScalars(defaults, data)
  {
    Header(
      title := GetValue(defaults, data, "title").s,
      pubDate := Unparsed(GetValue(defaults, data, "pubDate").s),
      feedType := GetValue(defaults, data, "feed_type").s,
      description := GetValue(defaults, data, "description").s,
      link := GetValue(defaults, data, "link").s,
      image := GetValue(defaults, data, "image").s,
      author := GetValue(defaults, data, "author").s,
      categories := GetValue(defaults, data, "categories"),
      explicit := GetValue(defaults, data, "explicit").s,
      subtitle := GetValue(defaults, data, "subtitle").s,
      language := GetValue(defaults, data, "language").s,
      email := GetValue(defaults, data, "email").s,
      copyright := GetValue(defaults, data, "copyright").s,
      locked := GetValue(defaults, data, "locked").s)
  }

  /** Each header field holds `getValue` of its own key: the categories as
      given, every other field escaped, decoding to the caller's value, else
      the default, else "" (null). */
  lemma ResolvedField(defaults: Record, data: Record, k: HeaderKey)
    requires HeaderScalars(defaults, data)
    ensures Stored(Resolved(defaults, data), k) == Some(GetValue(defaults, data, HeaderName(k)))
    ensures k == Categories ==> Resolved(defaults, data).categories == Lookup(defaults, data, "categories")
    ensures k != Categories ==>
      Unescape(Stored(Resolved(defaults, data), k).value.s) == StringOf(Lookup(defaults, data, HeaderName(k)))
  {
    if k != Categories {
      ScalarAtKey(defaults, data, k);
      GetValueDecodes(defaults, data, HeaderName(k));
    }
  }

  /** A field depends on its own key only: two records that agree on that
      key give the field the same value, whatever else they hold. */
  lemma ResolvedFieldLocal(defaults: Record, d1: Record, d2: Record, k: HeaderKey)
    requires HeaderScalars(defaults, d1) && HeaderScalars(defaults, d2)
    requires HeaderName(k) in d1 <==> HeaderName(k) in d2
    requires HeaderName(k) in d1 ==> d1[HeaderName(k)] == d2[HeaderName(k)]
    ensures Stored(Resolved(defaults, d1), k) == Stored(Resolved(defaults, d2), k)
  {
    ResolvedField(defaults, d1, k);
    ResolvedField(defaults, d2, k);
  }

  /** Before any `setHeader` by the caller, each field is the escaped
      configured default, or "" where there is none; the categories are the
      configured ones, or null. */
  lemma DefaultHeader(defaults: Record, k: HeaderKey)
    requires HeaderScalars(defaults, map[])
    ensures k == Categories ==>
      Resolved(defaults, map[]).categories == (if "categories" in defaults then defaults["categories"] else Null)
    ensures k != Categories && HeaderName(k) !in defaults ==>
      Stored(Resolved(defaults, map[]), k) == Some(Str(""))
    ensures k != Categories && HeaderName(k) in defaults ==>
      Stored(Resolved(defaults, map[]), k) == Some(Str(HtmlSpecialChars(defaults[HeaderName(k)])))
  {
    if k != Categories {
      ScalarAtKey(defaults, map[], k);
      DefaultValue(defaults, HeaderName(k));
    }
    ResolvedField(defaults, map[], k);
  }

  lemma ScalarAtKey(defaults: Record, data: Record, k: HeaderKey)
    requires HeaderScalars(defaults, data) && k != Categories
    ensures ScalarAt(defaults, data, HeaderName(k))
  {
  }

  lemma DefaultValue(defaults: Record, key: string)
    requires key != "categories" && ScalarAt(defaults, map[], key)
    ensures GetValue(defaults, map[], key)
         == Str(if key in defaults then HtmlSpecialChars(defaults[key]) else "")
  {
    GetValueDecodes(defaults, map[], key);
  }

  // ---------------------------------------------------------------------
  // The itunes:category tree

  function CategoryElem(text: string, kids: seq<Node>): Node
  {
    Elem("itunes:category", [("text", text)], kids)
  }

  /** Applies `f` to each entry in order; None as soon as one gives None. */
  function MapOption<X, Y>(xs: seq<X>, f: X -> Option<Y>): Option<seq<Y>>
    decreases |xs|
  {
    if xs == [] then Some([])
    else
      match MapOption(xs[..|xs| - 1], f)
      case None => None
      case Some(ys) =>
        match f(xs[|xs| - 1])
        case None => None
        case Some(y) => Some(ys + [y])
  }

  lemma {:induction false} MapOptionAll<X, Y>(xs: seq<X>, f: X -> Option<Y>)
    ensures MapOption(xs, f).Some? <==> forall i :: 0 <= i < |xs| ==> f(xs[i]).Some?
    ensures MapOption(xs, f).Some? ==>
      && |MapOption(xs, f).value| == |xs|
      && forall i :: 0 <= i < |xs| ==> MapOption(xs, f).value[i] == f(xs[i]).value
    decreases |xs|
  {
    if xs != [] {
      var init := xs[..|xs| - 1];
      MapOptionAll(init, f);
      assert forall i :: 0 <= i < |init| ==> xs[i] == init[i];
    }
  }

  /** A third-level category: `setAttribute("text", $subsubcategory)`. An
      array there is a TypeError. */
  function LeafNode(entry: (string, Value)): Option<Node>
  {
    if entry.1.Arr? then None else Some(CategoryElem(StringOf(entry.1), []))
  }

  /** A second-level category: an array value is a category named by its key
      with one child per value; anything else is a category whose text is
      the value. */
  function SubNode(entry: (string, Value)): Option<Node>
  {
    if entry.1.Arr? then
      match MapOption(entry.1.entries, LeafNode)
      case None => None
      case Some(leaves) => Some(CategoryElem(entry.0, leaves))
    else Some(CategoryElem(StringOf(entry.1), []))
  }

  /** A top-level category named by its key. A value that is not an array
      gives it no children (PHP's `foreach` over a scalar runs no iteration). */
  function TopNode(entry: (string, Value)): Option<Node>
  {
    if entry.1.Arr? then
      match MapOption(entry.1.entries, SubNode)
      case None => None
      case Some(subs) => Some(CategoryElem(entry.0, subs))
    else Some(CategoryElem(entry.0, []))
  }

  /** The `itunes:category` elements `generate` writes for the header's
      categories; nothing when they are not an array. */
  function CategoryNodes(cats: Value): Result<seq<Node>, FeedError>
  {
    if !cats.Arr? then Success([])
    else
      match MapOption(cats.entries, TopNode)
      case None => Failure(NonStringCategory)
      case Some(nodes) => Success(nodes)
  }

  /** No entry of `es` holds an array. */
  predicate AllScalar(es: seq<(string, Value)>)
  {
    forall k :: 0 <= k < |es| ==> !es[k].1.Arr?
  }

  /** The categories nest at most three levels deep. */
  predicate ThreeLevels(cats: Value)
  {
    cats.Arr? ==>
      forall i :: 0 <= i < |cats.entries| && cats.entries[i].1.Arr? ==>
        forall j :: 0 <= j < |cats.entries[i].1.entries| && cats.entries[i].1.entries[j].1.Arr? ==>
          AllScalar(cats.entries[i].1.entries[j].1.entries)
  }

  lemma SubNodeSome(entry: (string, Value))
    ensures SubNode(entry).Some? <==> (entry.1.Arr? ==> AllScalar(entry.1.entries))
  {
    if entry.1.Arr? {
      MapOptionAll(entry.1.entries, LeafNode);
    }
  }

  lemma TopNodeSome(entry: (string, Value))
    ensures TopNode(entry).Some? <==>
      (entry.1.Arr? ==> forall j :: 0 <= j < |entry.1.entries| && entry.1.entries[j].1.Arr? ==>
                          AllScalar(entry.1.entries[j].1.entries))
  {
    if entry.1.Arr? {
      var es := entry.1.entries;
      MapOptionAll(es, SubNode);
      forall j | 0 <= j < |es| {
        SubNodeSome(es[j]);
      }
    }
  }

  /** Rendering the categories fails exactly when an array sits at the third
      level, where `setAttribute` needs a string. */
  lemma CategoriesSucceed(cats: Value)
    ensures CategoryNodes(cats).Success? <==> ThreeLevels(cats)
    ensures CategoryNodes(cats).Failure? ==> CategoryNodes(cats).error == NonStringCategory
  {
    if cats.Arr? {
      MapOptionAll(cats.entries, TopNode);
      forall i | 0 <= i < |cats.entries| {
        TopNodeSome(cats.entries[i]);
      }
    }
  }

  /** One top-level `itunes:category` per entry, in order, with the entry's
      key as text; an array entry has one child per element, a scalar none. */
  lemma CategoryTopLevel(cats: Value)
    requires CategoryNodes(cats).Success?
    ensures var r := CategoryNodes(cats).value;
      && |r| == (if cats.Arr? then |cats.entries| else 0)
      && forall i :: 0 <= i < |r| ==>
        && r[i].Elem?
        && r[i] == CategoryElem(cats.entries[i].0, r[i].kids)
        && |r[i].kids| == (if cats.entries[i].1.Arr? then |cats.entries[i].1.entries| else 0)
  {
    if cats.Arr? {
      MapOptionAll(cats.entries, TopNode);
      forall i | 0 <= i < |cats.entries| && cats.entries[i].1.Arr? {
        MapOptionAll(cats.entries[i].1.entries, SubNode);
      }
    }
  }

  /** The j-th child of the i-th top-level category: an array entry gives a
      category named by its key with one grandchild per element, in order,
      each with that element as text; a scalar entry gives a category whose
      text is the scalar. */
  lemma CategorySecondLevel(cats: Value, i: nat, j: nat)
    requires CategoryNodes(cats).Success? && cats.Arr?
    requires i < |cats.entries| && cats.entries[i].1.Arr? && j < |cats.entries[i].1.entries|
    ensures var r := CategoryNodes(cats).value;
      var entry := cats.entries[i].1.entries[j];
      && i < |r| && r[i].Elem? && j < |r[i].kids| && r[i].kids[j].Elem?
      && r[i].kids[j] == CategoryElem(if entry.1.Arr? then entry.0 else StringOf(entry.1), r[i].kids[j].kids)
      && |r[i].kids[j].kids| == (if entry.1.Arr? then |entry.1.entries| else 0)
      && (entry.1.Arr? ==> forall l :: 0 <= l < |entry.1.entries| ==>
            !entry.1.entries[l].1.Arr? &&
            r[i].kids[j].kids[l] == CategoryElem(StringOf(entry.1.entries[l].1), []))
  {
    CategoryTopLevel(cats);
    MapOptionAll(cats.entries, TopNode);
    var subs := cats.entries[i].1.entries;
    MapOptionAll(subs, SubNode);
    if subs[j].1.Arr? {
      MapOptionAll(subs[j].1.entries, LeafNode);
    }
  }

  /** The categories of a two-level record such as
      `['Technology' => ['Software', 'Tech News']]`. */
  lemma CategoryExample()
    ensures CategoryNodes(Arr([("Technology", Arr([("0", Str("Software")), ("1", Str("Tech News"))]))]))
         == Success([CategoryElem("Technology", [CategoryElem("Software", []), CategoryElem("Tech News", [])])])
  {
    var subs := [("0", Str("Software")), ("1", Str("Tech News"))];
    var sub: ((string, Value)) -> Option<Node> := SubNode;
    assert sub(subs[0]) == Some(CategoryElem("Software", []));
    assert sub(subs[1]) == Some(CategoryElem("Tech News", []));
    MapOptionAll(subs, sub);
    var kids := [CategoryElem("Software", []), CategoryElem("Tech News", [])];
    assert MapOption(subs, sub).value[0] == kids[0];
    assert MapOption(subs, sub).value[1] == kids[1];
    assert MapOption(subs, sub).value == kids;
    var top := [("Technology", Arr(subs))];
    var topNode: ((string, Value)) -> Option<Node> := TopNode;
    assert topNode(top[0]) == Some(CategoryElem("Technology", kids));
    MapOptionAll(top, topNode);
    assert MapOption(top, topNode).value[0] == CategoryElem("Technology", kids);
    assert MapOption(top, topNode).value == [CategoryElem("Technology", kids)];
  }

  /** The category loops of `generate`: one pass over the top level, one over
      each array entry's children and one over each array grandchild's
      elements, building the nodes as they go. */
  method CategoryTree(cats: Value) returns (r: Result<seq<Node>, FeedError>)
    ensures r == CategoryNodes(cats)
  {
    if !cats.Arr? {
      return Success([]);
    }
    var top := cats.entries;
    var nodes: seq<Node> := [];
    var i := 0;
    while i < |top|
      invariant 0 <= i <= |top|
      invariant MapOption(top[..i], TopNode) == Some(nodes)
    {
      var (category, subcategories) := top[i];
      var kids: seq<Node> := [];
      if subcategories.Arr? {
        var subs := SubcategoryTree(subcategories.entries);
        if subs.None? {
          MapOptionAll(top, TopNode);
          return Failure(NonStringCategory);
        }
        kids := subs.value;
      }
      assert top[..i + 1][..i] == top[..i];
      nodes := nodes + [CategoryElem(category, kids)];
      i := i + 1;
    }
    assert top[..i] == top;
    r := Success(nodes);
  }

  /** The second-level loop of the category tree; None where `setAttribute`
      would throw. */
  method SubcategoryTree(subs: seq<(string, Value)>) returns (r: Option<seq<Node>>)
    ensures r == MapOption(subs, SubNode)
  {
    var kids: seq<Node> := [];
    var j := 0;
    while j < |subs|
      invariant 0 <= j <= |subs|
      invariant MapOption(subs[..j], SubNode) == Some(kids)
    {
      var (subcategory, value) := subs[j];
      var sub: Node;
      if value.Arr? {
        var leaves := LeafTree(value.entries);
        if leaves.None? {
          MapOptionAll(subs, SubNode);
          return None;
        }
        sub := CategoryElem(subcategory, leaves.value);
      } else {
        sub := CategoryElem(StringOf(value), []);
      }
      assert subs[..j + 1][..j] == subs[..j];
      kids := kids + [sub];
      j := j + 1;
    }
    assert subs[..j] == subs;
    r := Some(kids);
  }

  /** The third-level loop of the category tree: each value becomes a
      category named by it; an array value makes `setAttribute` throw. */
  method LeafTree(values: seq<(string, Value)>) returns (r: Option<seq<Node>>)
    ensures r == MapOption(values, LeafNode)
  {
    var leaves: seq<Node> := [];
    var l := 0;
    while l < |values|
      invariant 0 <= l <= |values|
      invariant MapOption(values[..l], LeafNode) == Some(leaves)
    {
      var leaf := values[l].1;
      if leaf.Arr? {
        MapOptionAll(values, LeafNode);
        return None;
      }
      assert values[..l + 1][..l] == values[..l];
      leaves := leaves + [CategoryElem(StringOf(leaf), [])];
      l := l + 1;
    }
    assert values[..l] == values;
    r := Some(leaves);
  }

  // ---------------------------------------------------------------------
  // The channel publication date

  /** `$this->pubDate == null`: only the empty string compares equal to
      null; a DateTime never does. */
  predicate IsNull(d: DateField)
  {
    d.Unparsed? && LooseNull(d.s)
  }

  /** `$this->pubDate < $date` for a DateTime `$date`. Two DateTimes compare
      by instant. A string cannot be converted to a DateTime nor a DateTime to
      a string, and PHP then ranks the object above the string. */
  predicate Before(d: DateField, t: Timestamp)
  {
    match d
    case Unparsed(_) => true
    case Parsed(c) => Earlier(c, t)
  }

  /** One pass of the episode loop over an episode dated `t`. */
  function Step(d: DateField, t: Timestamp): DateField
  {
    if IsNull(d) then Parsed(t)
    else if Before(d, t) then Parsed(t)
    else d
  }

  /** The stored date after the episode loop has visited `ms`. */
  function LoopDate(d: DateField, ms: seq<PodcastMedia.Media>): DateField
  {
    if ms == [] then d else Step(LoopDate(d, ms[..|ms| - 1]), ms[|ms| - 1].pubDate)
  }

  /** The date written out after the loop: "now" for an empty date, the
      DateTime as it is, or the stored text parsed, which throws when it
      cannot be read. */
  function FinalDate(d: DateField, now: Timestamp, parse: string -> Option<Timestamp>): Result<Timestamp, FeedError>
  {
    if IsNull(d) then Success(now)
    else
      match d
      case Parsed(t) => Success(t)
      case Unparsed(s) =>
        match parse(s)
        case None => Failure(InvalidDate(s))
        case Some(t) => Success(t)
  }

  /** After visiting at least one episode the date is a DateTime no earlier
      than any episode seen, and never earlier than a DateTime it started at. */
  lemma {:induction false} LoopDateBound(d: DateField, ms: seq<PodcastMedia.Media>)
    ensures ms != [] || d.Parsed? ==> LoopDate(d, ms).Parsed?
    ensures ms != [] ==> forall j :: 0 <= j < |ms| ==> ms[j].pubDate.instant <= LoopDate(d, ms).t.instant
    ensures d.Parsed? ==> d.t.instant <= LoopDate(d, ms).t.instant
    decreases |ms|
  {
    if ms != [] {
      var init := ms[..|ms| - 1];
      LoopDateBound(d, init);
      assert forall j :: 0 <= j < |init| ==> ms[j] == init[j];
    }
  }

  /** Starting from the text `setHeader` stored, the loop ends on the date
      of the first episode with the latest instant. */
  lemma {:induction false} LoopDateLatest(d: DateField, ms: seq<PodcastMedia.Media>)
    requires d.Unparsed? && ms != []
    ensures exists k :: 0 <= k < |ms| && LoopDate(d, ms) == Parsed(ms[k].pubDate)
                        && (forall j :: 0 <= j < k ==> ms[j].pubDate.instant < ms[k].pubDate.instant)
    decreases |ms|
  {
    var init := ms[..|ms| - 1];
    var last := ms[|ms| - 1];
    if init == [] {
      assert LoopDate(d, ms) == Parsed(ms[0].pubDate);
    } else {
      LoopDateLatest(d, init);
      LoopDateBound(d, init);
      var k :| 0 <= k < |init| && LoopDate(d, init) == Parsed(init[k].pubDate)
        && forall j :: 0 <= j < k ==> init[j].pubDate.instant < init[k].pubDate.instant;
      assert forall j :: 0 <= j < |init| ==> ms[j] == init[j];
      if init[k].pubDate.instant < last.pubDate.instant {
        assert LoopDate(d, ms) == Parsed(ms[|ms| - 1].pubDate);
      } else {
        assert LoopDate(d, ms) == Parsed(ms[k].pubDate);
      }
    }
  }

  /** With at least one episode, the text `setHeader` stored makes no
      difference: the first episode replaces it, whatever it is. */
  lemma {:induction false} HeaderDateReplaced(d: DateField, ms: seq<PodcastMedia.Media>)
    requires d.Unparsed? && ms != []
    ensures LoopDate(d, ms) == LoopDate(Unparsed(""), ms)
    decreases |ms|
  {
    var init := ms[..|ms| - 1];
    if init != [] {
      HeaderDateReplaced(d, init);
    }
  }

  /** A DateTime no earlier than every episode survives the loop. */
  lemma {:induction false} LoopDateStable(t: Timestamp, ms: seq<PodcastMedia.Media>)
    requires forall j :: 0 <= j < |ms| ==> ms[j].pubDate.instant <= t.instant
    ensures LoopDate(Parsed(t), ms) == Parsed(t)
    decreases |ms|
  {
    if ms != [] {
      var init := ms[..|ms| - 1];
      assert forall j :: 0 <= j < |init| ==> init[j] == ms[j];
      LoopDateStable(t, init);
    }
  }

  /** With no episodes, an empty header date becomes "now" and a non-empty
      one is parsed, or makes `generate` throw. */
  lemma DateWithoutEpisodes(s: string, now: Timestamp, parse: string -> Option<Timestamp>)
    ensures s == "" ==> FinalDate(LoopDate(Unparsed(s), []), now, parse) == Success(now)
    ensures s != "" && parse(s).Some? ==> FinalDate(LoopDate(Unparsed(s), []), now, parse) == Success(parse(s).value)
    ensures s != "" && parse(s).None? ==> FinalDate(LoopDate(Unparsed(s), []), now, parse) == Failure(InvalidDate(s))
  {
  }

  // ---------------------------------------------------------------------
  // The <rss>/<channel> tree

  /** The `<item>` of each episode, in list order. */
  function Items(ms: seq<PodcastMedia.Media>, format: Timestamp -> string): seq<Node>
  {
    MapSeq(ms, (m: PodcastMedia.Media) => PodcastMedia.ItemNode(m, format))
  }

  /** Applies `f` to each element, in order. */
  function MapSeq<X, Y>(xs: seq<X>, f: X -> Y): seq<Y>
  {
    if xs == [] then [] else MapSeq(xs[..|xs| - 1], f) + [f(xs[|xs| - 1])]
  }

  lemma {:induction false} MapSeqIndex<X, Y>(xs: seq<X>, f: X -> Y)
    ensures |MapSeq(xs, f)| == |xs|
    ensures forall i :: 0 <= i < |xs| ==> MapSeq(xs, f)[i] == f(xs[i])
    decreases |xs|
  {
    if xs != [] {
      var init := xs[..|xs| - 1];
      MapSeqIndex(init, f);
      assert forall i :: 0 <= i < |init| ==> init[i] == xs[i];
    }
  }

  lemma ItemsSnoc(ms: seq<PodcastMedia.Media>, i: nat, format: Timestamp -> string)
    requires i < |ms|
    ensures Items(ms[..i + 1], format) == Items(ms[..i], format) + [PodcastMedia.ItemNode(ms[i], format)]
  {
    assert ms[..i + 1][..i] == ms[..i];
  }

  /** The items are the episodes' `<item>` subtrees, one per episode, in the
      order the episodes were added. */
  lemma ItemsInOrder(ms: seq<PodcastMedia.Media>, format: Timestamp -> string)
    ensures |Items(ms, format)| == |ms|
    ensures forall i :: 0 <= i < |ms| ==> Items(ms, format)[i] == PodcastMedia.ItemNode(ms[i], format)
  {
    MapSeqIndex(ms, (m: PodcastMedia.Media) => PodcastMedia.ItemNode(m, format));
  }

  lemma ItemsNamed(ms: seq<PodcastMedia.Media>, format: Timestamp -> string)
    ensures AllNamed(Items(ms, format), "item")
  {
    ItemsInOrder(ms, format);
  }

  /** The namespaces and version `generate` puts on `<rss>`. */
  const RssAttrs: seq<(string, string)> :=
    [("xmlns:itunes", "http://www.itunes.com/dtds/podcast-1.0.dtd"),
     ("xmlns:atom", "http://www.w3.org/2005/Atom"),
     ("xmlns:cc", "http://web.resource.org/cc/"),
     ("xmlns:podcast", "https://podcastindex.org/namespace/1.0"),
     ("xmlns:googleplay", "http://www.google.com/schemas/play-podcasts/1.0"),
     ("xmlns:content", "http://purl.org/rss/1.0/modules/content/"),
     ("xmlns:rdf", "http://www.w3.org/1999/02/22-rdf-syntax-ns#"),
     ("xmlns:media", "http://search.yahoo.com/mrss/"),
     ("version", "2.0")]

  /** The fixed order of the channel's children before the episodes. */
  const HeadOrder: seq<string> :=
    ["title", "itunes:subtitle", "itunes:type", "link", "atom:link", "description",
     "itunes:summary", "image", "itunes:image", "itunes:author", "podcast:locked",
     "managingEditor", "itunes:owner", "itunes:category", "itunes:explicit", "language",
     "copyright"]

  /** The fixed order of the channel's children. */
  const ChannelOrder: seq<string> := HeadOrder + ["item", "pubDate", "lastBuildDate"]

  /** `feed_type` is written only when it is 'serial' or 'episodic'. */
  predicate KnownFeedType(t: string)
  {
    Truthy(t) && (t == "serial" || t == "episodic")
  }

  /** What `generate` writes before the episodes, one slot per name of
      `ChannelOrder`. The `!== null` guards on explicit, language and
      copyright always pass: those fields always hold a string. */
  function HeadSlots(h: Header, cats: seq<Node>): seq<seq<Node>>
  {
    [ [TextElem("title", h.title)],
      PodcastMedia.Opt(!LooseNull(h.subtitle), TextElem("itunes:subtitle", h.subtitle)),
      PodcastMedia.Opt(KnownFeedType(h.feedType), TextElem("itunes:type", h.feedType)),
      [TextElem("link", h.link)],
      [Elem("atom:link", [("href", h.link + "/rss"), ("rel", "self"), ("type", "application/rss+xml")], [])],
      [CDataElem("description", h.description)],
      [TextElem("itunes:summary", h.description)],
      [Elem("image", [], [TextElem("title", h.title), TextElem("link", h.link), TextElem("url", h.image)])],
      [Elem("itunes:image", [("href", h.image)], [])],
      [TextElem("itunes:author", h.author)],
      [Elem("podcast:locked", [("owner", h.email)], [Text(h.locked)])],
      PodcastMedia.Opt(!LooseNull(h.email), TextElem("managingEditor", h.email + " (" + h.email + ")")),
      [Elem("itunes:owner", [], [TextElem("itunes:name", h.author)]
                               + PodcastMedia.Opt(!LooseNull(h.email), TextElem("itunes:email", h.email)))],
      cats,
      [TextElem("itunes:explicit", h.explicit)],
      [TextElem("language", h.language)],
      [TextElem("copyright", h.copyright)]
    ]
  }

  /** All the channel's children, slot by slot: the head, the items, and the
      publication and last-build dates. */
  function ChannelSlots(h: Header, cats: seq<Node>, items: seq<Node>, date: string): seq<seq<Node>>
  {
    HeadSlots(h, cats) + [items, [TextElem("pubDate", date)], [TextElem("lastBuildDate", date)]]
  }

  function Channel(h: Header, cats: seq<Node>, items: seq<Node>, date: string): Node
  {
    Elem("channel", [], Flatten(ChannelSlots(h, cats, items, date)))
  }

  /** The document `generate` returns for header `h` and episodes `ms`, or
      the exception it throws. */
  function FeedDocument(h: Header, ms: seq<PodcastMedia.Media>, now: Timestamp,
                        parse: string -> Option<Timestamp>, format: Timestamp -> string): Result<Node, FeedError>
  {
    match CategoryNodes(h.categories)
    case Failure(e) => Failure(e)
    case Success(cats) =>
      match FinalDate(LoopDate(h.pubDate, ms), now, parse)
      case Failure(e) => Failure(e)
      case Success(t) => Success(Elem("rss", RssAttrs, [Channel(h, cats, Items(ms, format), format(t))]))
  }

  /** The date `generate` leaves in the object: untouched when the category
      tree throws, else the loop's result, replaced by the final DateTime
      when there is one. */
  function StoredDate(h: Header, ms: seq<PodcastMedia.Media>, now: Timestamp,
                      parse: string -> Option<Timestamp>): DateField
  {
    if CategoryNodes(h.categories).Failure? then h.pubDate
    else
      match FinalDate(LoopDate(h.pubDate, ms), now, parse)
      case Success(t) => Parsed(t)
      case Failure(_) => LoopDate(h.pubDate, ms)
  }

  // HeadSlottedA to HeadSlottedD state one fact, that slot j holds only
  // elements named ChannelOrder[j], in four parts so that each stays small
  // for the solver.

  lemma HeadSlottedA(h: Header, cats: seq<Node>, items: seq<Node>, date: string)
    ensures forall j :: 0 <= j < 5 ==> AllNamed(ChannelSlots(h, cats, items, date)[j], ChannelOrder[j])
  {
    var parts := ChannelSlots(h, cats, items, date);
    assert AllNamed(parts[0], ChannelOrder[0]);
    assert AllNamed(parts[1], ChannelOrder[1]);
    assert AllNamed(parts[2], ChannelOrder[2]);
    assert AllNamed(parts[3], ChannelOrder[3]);
    assert AllNamed(parts[4], ChannelOrder[4]);
  }

  lemma HeadSlottedB(h: Header, cats: seq<Node>, items: seq<Node>, date: string)
    ensures forall j :: 5 <= j < 10 ==> AllNamed(ChannelSlots(h, cats, items, date)[j], ChannelOrder[j])
  {
    var parts := ChannelSlots(h, cats, items, date);
    assert AllNamed(parts[5], ChannelOrder[5]);
    assert AllNamed(parts[6], ChannelOrder[6]);
    assert AllNamed(parts[7], ChannelOrder[7]);
    assert AllNamed(parts[8], ChannelOrder[8]);
    assert AllNamed(parts[9], ChannelOrder[9]);
  }

  lemma HeadSlottedC(h: Header, cats: seq<Node>, items: seq<Node>, date: string)
    requires AllNamed(cats, "itunes:category")
    ensures forall j :: 10 <= j < 15 ==> AllNamed(ChannelSlots(h, cats, items, date)[j], ChannelOrder[j])
  {
    var parts := ChannelSlots(h, cats, items, date);
    assert AllNamed(parts[10], ChannelOrder[10]);
    assert AllNamed(parts[11], ChannelOrder[11]);
    assert AllNamed(parts[12], ChannelOrder[12]);
    assert AllNamed(parts[13], ChannelOrder[13]);
    assert AllNamed(parts[14], ChannelOrder[14]);
  }

  lemma HeadSlottedD(h: Header, cats: seq<Node>, items: seq<Node>, date: string)
    requires AllNamed(items, "item")
    ensures forall j :: 15 <= j < 20 ==> AllNamed(ChannelSlots(h, cats, items, date)[j], ChannelOrder[j])
  {
    var parts := ChannelSlots(h, cats, items, date);
    assert AllNamed(parts[15], ChannelOrder[15]);
    assert AllNamed(parts[16], ChannelOrder[16]);
    assert AllNamed(parts[17], ChannelOrder[17]);
    assert AllNamed(parts[18], ChannelOrder[18]);
    assert AllNamed(parts[19], ChannelOrder[19]);
  }

  lemma HeadOrderDistinct()
    ensures Distinct(HeadOrder)
  {
  }

  lemma ChannelOrderDistinct()
    ensures Distinct(ChannelOrder)
  {
    HeadOrderDistinct();
    var tail := ["item", "pubDate", "lastBuildDate"];
    assert forall i, j :: 0 <= i < |HeadOrder| && 0 <= j < |tail| ==> HeadOrder[i] != tail[j];
    DistinctConcat(HeadOrder, tail);
  }

  lemma ChannelSlotted(h: Header, cats: seq<Node>, items: seq<Node>, date: string)
    requires AllNamed(cats, "itunes:category") && AllNamed(items, "item")
    ensures Slotted(ChannelSlots(h, cats, items, date), ChannelOrder) && Distinct(ChannelOrder)
  {
    HeadSlottedA(h, cats, items, date);
    HeadSlottedB(h, cats, items, date);
    HeadSlottedC(h, cats, items, date);
    HeadSlottedD(h, cats, items, date);
    ChannelOrderDistinct();
  }

  /** The channel's children named `ChannelOrder[i]` are exactly slot i. */
  lemma ChannelNamed(h: Header, cats: seq<Node>, items: seq<Node>, date: string, i: nat)
    requires AllNamed(cats, "itunes:category") && AllNamed(items, "item") && i < |ChannelOrder|
    ensures Named(Channel(h, cats, items, date).kids, ChannelOrder[i]) == ChannelSlots(h, cats, items, date)[i]
  {
    ChannelSlotted(h, cats, items, date);
    NamedSlot(ChannelSlots(h, cats, items, date), ChannelOrder, i);
  }

  /** The channel's children follow the fixed order of `ChannelOrder`. */
  lemma ChannelLayout(h: Header, cats: seq<Node>, items: seq<Node>, date: string)
    requires AllNamed(cats, "itunes:category") && AllNamed(items, "item")
    ensures InOrder(Channel(h, cats, items, date).kids, ChannelOrder)
    ensures var kids := Channel(h, cats, items, date).kids;
      forall p :: 0 <= p < |kids| ==> Rank(kids[p], ChannelOrder) < |ChannelOrder|
  {
    ChannelSlotted(h, cats, items, date);
    SlotOrder(ChannelSlots(h, cats, items, date), ChannelOrder);
    SlottedRanks(ChannelSlots(h, cats, items, date), ChannelOrder);
  }

  /** `itunes:subtitle` is written only for a non-empty subtitle. */
  lemma ChannelSubtitle(h: Header, cats: seq<Node>, items: seq<Node>, date: string)
    requires AllNamed(cats, "itunes:category") && AllNamed(items, "item")
    ensures Named(Channel(h, cats, items, date).kids, "itunes:subtitle")
         == (if h.subtitle != "" then [TextElem("itunes:subtitle", h.subtitle)] else [])
  {
    HeadNamed(h, cats, items, date, 1);
  }

  /** `itunes:type` is written only for 'serial' or 'episodic'. */
  lemma ChannelFeedType(h: Header, cats: seq<Node>, items: seq<Node>, date: string)
    requires AllNamed(cats, "itunes:category") && AllNamed(items, "item")
    ensures Named(Channel(h, cats, items, date).kids, "itunes:type")
         == (if h.feedType == "serial" || h.feedType == "episodic" then [TextElem("itunes:type", h.feedType)] else [])
  {
    HeadNamed(h, cats, items, date, 2);
  }

  /** `managingEditor` ("email (email)") is written only for a non-empty email. */
  lemma ChannelManagingEditor(h: Header, cats: seq<Node>, items: seq<Node>, date: string)
    requires AllNamed(cats, "itunes:category") && AllNamed(items, "item")
    ensures Named(Channel(h, cats, items, date).kids, "managingEditor")
         == (if h.email != "" then [TextElem("managingEditor", h.email + " (" + h.email + ")")] else [])
  {
    HeadNamed(h, cats, items, date, 11);
  }

  /** `itunes:owner` is written once, holding the author's name and, when
      there is an email, the email. */
  lemma ChannelOwner(h: Header, cats: seq<Node>, items: seq<Node>, date: string)
    requires AllNamed(cats, "itunes:category") && AllNamed(items, "item")
    ensures Named(Channel(h, cats, items, date).kids, "itunes:owner")
         == [Elem("itunes:owner", [], [TextElem("itunes:name", h.author)]
              + (if h.email != "" then [TextElem("itunes:email", h.email)] else []))]
  {
    HeadNamed(h, cats, items, date, 12);
  }

  /** The self link is the channel link followed by "/rss". */
  lemma ChannelSelfLink(h: Header, cats: seq<Node>, items: seq<Node>, date: string)
    requires AllNamed(cats, "itunes:category") && AllNamed(items, "item")
    ensures Named(Channel(h, cats, items, date).kids, "atom:link")
         == [Elem("atom:link", [("href", h.link + "/rss"), ("rel", "self"), ("type", "application/rss+xml")], [])]
  {
    HeadNamed(h, cats, items, date, 4);
  }

  /** The image block holds the title, the link and the image URL. */
  lemma ChannelImage(h: Header, cats: seq<Node>, items: seq<Node>, date: string)
    requires AllNamed(cats, "itunes:category") && AllNamed(items, "item")
    ensures Named(Channel(h, cats, items, date).kids, "image")
         == [Elem("image", [], [TextElem("title", h.title), TextElem("link", h.link), TextElem("url", h.image)])]
  {
    HeadNamed(h, cats, items, date, 7);
  }

  /** The channel's title, link and description, each written once. */
  lemma ChannelAlways(h: Header, cats: seq<Node>, items: seq<Node>, date: string)
    requires AllNamed(cats, "itunes:category") && AllNamed(items, "item")
    ensures var kids := Channel(h, cats, items, date).kids;
      && Named(kids, "title") == [TextElem("title", h.title)]
      && Named(kids, "link") == [TextElem("link", h.link)]
      && Named(kids, "description") == [CDataElem("description", h.description)]
      && Named(kids, "itunes:summary") == [TextElem("itunes:summary", h.description)]
  {
    HeadNamed(h, cats, items, date, 0);
    HeadNamed(h, cats, items, date, 3);
    HeadNamed(h, cats, items, date, 5);
    HeadNamed(h, cats, items, date, 6);
  }

  /** The explicit flag, language and copyright, each written once as given. */
  lemma ChannelRights(h: Header, cats: seq<Node>, items: seq<Node>, date: string)
    requires AllNamed(cats, "itunes:category") && AllNamed(items, "item")
    ensures var kids := Channel(h, cats, items, date).kids;
      && Named(kids, "itunes:explicit") == [TextElem("itunes:explicit", h.explicit)]
      && Named(kids, "language") == [TextElem("language", h.language)]
      && Named(kids, "copyright") == [TextElem("copyright", h.copyright)]
  {
    HeadNamed(h, cats, items, date, 14);
    HeadNamed(h, cats, items, date, 15);
    HeadNamed(h, cats, items, date, 16);
  }

  /** The artwork, the author and the lock flag, each written once; the lock
      flag names the email as its owner. */
  lemma ChannelAuthorship(h: Header, cats: seq<Node>, items: seq<Node>, date: string)
    requires AllNamed(cats, "itunes:category") && AllNamed(items, "item")
    ensures var kids := Channel(h, cats, items, date).kids;
      && Named(kids, "itunes:image") == [Elem("itunes:image", [("href", h.image)], [])]
      && Named(kids, "itunes:author") == [TextElem("itunes:author", h.author)]
      && Named(kids, "podcast:locked")
         == [Elem("podcast:locked", [("owner", h.email)], [Text(h.locked)])]
  {
    HeadNamed(h, cats, items, date, 8);
    HeadNamed(h, cats, items, date, 9);
    HeadNamed(h, cats, items, date, 10);
  }

  /** The channel's children named `HeadOrder[i]` are exactly head slot i. */
  lemma HeadNamed(h: Header, cats: seq<Node>, items: seq<Node>, date: string, i: nat)
    requires AllNamed(cats, "itunes:category") && AllNamed(items, "item") && i < |HeadOrder|
    ensures Named(Channel(h, cats, items, date).kids, HeadOrder[i]) == HeadSlots(h, cats)[i]
  {
    ChannelNamed(h, cats, items, date, i);
    assert ChannelOrder[i] == HeadOrder[i];
    assert ChannelSlots(h, cats, items, date)[i] == HeadSlots(h, cats)[i];
  }

  /** The `itunes:category` children are exactly the category nodes. */
  lemma ChannelCategories(h: Header, cats: seq<Node>, items: seq<Node>, date: string)
    requires AllNamed(cats, "itunes:category") && AllNamed(items, "item")
    ensures Named(Channel(h, cats, items, date).kids, "itunes:category") == cats
  {
    HeadNamed(h, cats, items, date, 13);
  }

  /** The `<item>` children are the episodes' items, in list order. */
  lemma ChannelItems(h: Header, cats: seq<Node>, ms: seq<PodcastMedia.Media>, format: Timestamp -> string, date: string)
    requires AllNamed(cats, "itunes:category")
    ensures var items := Named(Channel(h, cats, Items(ms, format), date).kids, "item");
      && |items| == |ms|
      && forall i :: 0 <= i < |ms| ==> items[i] == PodcastMedia.ItemNode(ms[i], format)
  {
    ItemsNamed(ms, format);
    ChannelNamed(h, cats, Items(ms, format), date, 17);
    ItemsInOrder(ms, format);
  }

  /** `pubDate` and `lastBuildDate` are written once each, with the same text. */
  lemma ChannelDates(h: Header, cats: seq<Node>, items: seq<Node>, date: string)
    requires AllNamed(cats, "itunes:category") && AllNamed(items, "item")
    ensures var kids := Channel(h, cats, items, date).kids;
      && Named(kids, "pubDate") == [TextElem("pubDate", date)]
      && Named(kids, "lastBuildDate") == [TextElem("lastBuildDate", date)]
  {
    ChannelNamed(h, cats, items, date, 18);
    ChannelNamed(h, cats, items, date, 19);
  }

  /** Each category node is named `itunes:category`. */
  lemma CategoriesNamed(cats: Value)
    requires CategoryNodes(cats).Success?
    ensures AllNamed(CategoryNodes(cats).value, "itunes:category")
  {
    CategoryTopLevel(cats);
  }

  /** `generate` succeeds exactly when the categories nest at most three
      levels and a date can be settled on; its `pubDate` is then the latest
      episode date whenever there are episodes. */
  lemma FeedOutcome(h: Header, ms: seq<PodcastMedia.Media>, now: Timestamp,
                    parse: string -> Option<Timestamp>, format: Timestamp -> string)
    requires h.pubDate.Unparsed?
    ensures FeedDocument(h, ms, now, parse, format).Success? <==>
      ThreeLevels(h.categories) && (ms != [] || h.pubDate.s == "" || parse(h.pubDate.s).Some?)
    ensures ms != [] && FeedDocument(h, ms, now, parse, format).Success? ==>
      var t := StoredDate(h, ms, now, parse).t;
      (forall j :: 0 <= j < |ms| ==> ms[j].pubDate.instant <= t.instant)
      && exists k :: 0 <= k < |ms| && t == ms[k].pubDate
  {
    CategoriesSucceed(h.categories);
    if ms != [] {
      LoopDateBound(h.pubDate, ms);
      LoopDateLatest(h.pubDate, ms);
    }
  }

  /** Generating again from the state `generate` leaves behind, at any later
      time, gives the same document and keeps the same date. */
  lemma RegenerateStable(h: Header, ms: seq<PodcastMedia.Media>, now: Timestamp, later: Timestamp,
                         parse: string -> Option<Timestamp>, format: Timestamp -> string)
    requires FeedDocument(h, ms, now, parse, format).Success?
    ensures var h' := h.(pubDate := StoredDate(h, ms, now, parse));
      && FeedDocument(h', ms, later, parse, format) == FeedDocument(h, ms, now, parse, format)
      && StoredDate(h', ms, later, parse) == StoredDate(h, ms, now, parse)
  {
    RegenerateDate(h, ms, now, later, parse);
  }

  lemma RegenerateDate(h: Header, ms: seq<PodcastMedia.Media>, now: Timestamp, later: Timestamp,
                       parse: string -> Option<Timestamp>)
    requires CategoryNodes(h.categories).Success? && FinalDate(LoopDate(h.pubDate, ms), now, parse).Success?
    ensures var t := FinalDate(LoopDate(h.pubDate, ms), now, parse).value;
      && StoredDate(h, ms, now, parse) == Parsed(t)
      && LoopDate(Parsed(t), ms) == Parsed(t)
      && FinalDate(Parsed(t), later, parse) == Success(t)
  {
    var t := FinalDate(LoopDate(h.pubDate, ms), now, parse).value;
    if ms != [] {
      LoopDateBound(h.pubDate, ms);
    }
    LoopDateStable(t, ms);
  }

  // ---------------------------------------------------------------------
  // The Manager object

  /** The feed builder: the configured defaults, the header fields and the
      episodes added so far. */
  class Manager {
    const defaults: Record
    var title: string
    var pubDate: DateField
    var feedType: string
    var description: string
    var link: string
    var image: string
    var author: string
    var categories: Value
    var explicit: string
    var subtitle: string
    var language: string
    var email: string
    var copyright: string
    var locked: string
    var media: seq<PodcastMedia.Media>

    /** The header fields as one value. */
    function Snapshot(): Header
      reads this
    {
      Header(title, pubDate, feedType, description, link, image, author, categories,
             explicit, subtitle, language, email, copyright, locked)
    }

    /** `new Manager($config)` with `$config['defaults']`: the header is
        resolved from the defaults alone and there are no episodes. */
    constructor (defaults: Record)
      requires HeaderScalars(defaults, map[])
      ensures this.defaults == defaults
      ensures Snapshot() == Resolved(defaults, map[]) && media == []
    {
      this.defaults := defaults;
      media := [];
      new;
      SetHeader(map[]);
    }

    /** `setHeader($data)`: every header field is overwritten from `data`
        and the defaults, whatever it held before; the episodes stay. */
    method SetHeader(data: Record)
      requires HeaderScalars(defaults, data)
      modifies this
      ensures Snapshot() == Resolved(defaults, data) && media == old(media)
    {
      Store(Resolved(defaults, data));
    }

    /** Overwrites every header field with `h`. */
    method Store(h: Header)
      modifies this
      ensures Snapshot() == h && media == old(media)
    {
      StoreRequired(h);
      StoreOptional(h);
    }

    /** The assignments of `setHeader` up to the categories, in the order
        written there (the date field is assigned twice). */
    method StoreRequired(h: Header)
      modifies this`title, this`pubDate, this`feedType, this`description, this`link, this`image,
               this`author, this`categories
      ensures title == h.title && pubDate == h.pubDate && feedType == h.feedType
      ensures description == h.description && link == h.link && image == h.image
      ensures author == h.author && categories == h.categories
    {
      title := h.title;
      pubDate := h.pubDate;
      feedType := h.feedType;
      description := h.description;
      link := h.link;
      image := h.image;
      author := h.author;
      pubDate := h.pubDate;
      categories := h.categories;
    }

    /** The assignments of the optional header values. */
    method StoreOptional(h: Header)
      modifies this`explicit, this`subtitle, this`language, this`email, this`copyright, this`locked
      ensures explicit == h.explicit && subtitle == h.subtitle && language == h.language
      ensures email == h.email && copyright == h.copyright && locked == h.locked
    {
      explicit := h.explicit;
      subtitle := h.subtitle;
      language := h.language;
      email := h.email;
      copyright := h.copyright;
      locked := h.locked;
    }

    /** `addMedia($data)`: the new episode goes at the end of the list; when
        its date cannot be parsed the constructor throws and the list stays
        as it was. */
    method AddMedia(data: Record, parse: string -> Option<Timestamp>) returns (r: Outcome<FeedError>)
      requires PodcastMedia.WellTyped(data)
      modifies this`media
      ensures PodcastMedia.NewMedia(data, parse).Success? ==>
        r == Pass && media == old(media) + [PodcastMedia.NewMedia(data, parse).value]
      ensures PodcastMedia.NewMedia(data, parse).Failure? ==>
        r == Fail(PodcastMedia.NewMedia(data, parse).error) && media == old(media)
    {
      match PodcastMedia.NewMedia(data, parse)
      case Failure(e) =>
        r := Fail(e);
      case Success(m) =>
        media := media + [m];
        r := Pass;
    }

    /** The episode loop of `generate`: each episode's `<item>` goes at the
        end of the channel, and the stored date becomes the running maximum
        of the episode dates (the first episode replaces a stored text). */
    method AppendEpisodes(doc: Document, head: seq<Node>, format: Timestamp -> string)
      requires doc.root == Elem("rss", RssAttrs, [Elem("channel", [], head)])
      modifies doc, this`pubDate
      ensures doc.root == Elem("rss", RssAttrs, [Elem("channel", [], head + Items(media, format))])
      ensures pubDate == LoopDate(old(pubDate), media)
    {
      var ms := media;
      var i := 0;
      assert head + Items(ms[..0], format) == head;
      while i < |ms|
        invariant 0 <= i <= |ms|
        invariant doc.root == Elem("rss", RssAttrs, [Elem("channel", [], head + Items(ms[..i], format))])
        invariant pubDate == LoopDate(old(pubDate), ms[..i])
        invariant i > 0 ==> NoEarlierThanAll(pubDate, ms[..i])
      {
        EpisodeAppended(head, ms, i, format);
        PodcastMedia.AddToDom(ms[i], doc, format);
        ghost var previous := pubDate;
        ConsiderDate(ms[i].pubDate);
        RunningMax(previous, pubDate, ms, i);
        LoopDateSnoc(old(pubDate), ms, i);
        i := i + 1;
      }
      assert ms[..i] == ms;
    }

    /** The date update of one loop pass: an empty date, or one earlier than
        the episode's, becomes the episode's date. */
    method ConsiderDate(date: Timestamp)
      modifies this`pubDate
      ensures pubDate == Step(old(pubDate), date)
    {
      if IsNull(pubDate) {
        pubDate := Parsed(date);
      } else if Before(pubDate, date) {
        pubDate := Parsed(date);
      }
    }

    /** The date written out after the loop: an empty date becomes `now`,
        a text date is parsed, and a failed parse throws. */
    method FinishDate(now: Timestamp, parse: string -> Option<Timestamp>) returns (r: Result<Timestamp, FeedError>)
      modifies this`pubDate
      ensures r == FinalDate(old(pubDate), now, parse)
      ensures pubDate == (if r.Success? then Parsed(r.value) else old(pubDate))
    {
      if IsNull(pubDate) {
        pubDate := Parsed(now);
      }
      if pubDate.Unparsed? {
        match parse(pubDate.s)
        case None =>
          return Failure(InvalidDate(pubDate.s));
        case Some(t) =>
          pubDate := Parsed(t);
      }
      r := Success(pubDate.t);
    }

    /** `generate()` (and `toDom()`): builds the document and writes the
        channel date back into the object. `now` is the clock's reading,
        `parse` PHP's date parser and `format` the RFC 2822 formatter. */
    method Generate(now: Timestamp, parse: string -> Option<Timestamp>, format: Timestamp -> string)
      returns (r: Result<Node, FeedError>)
      modifies this`pubDate
      ensures r == FeedDocument(old(Snapshot()), media, now, parse, format)
      ensures pubDate == StoredDate(old(Snapshot()), media, now, parse)
    {
      var h := Snapshot();
      var cats := CategoryTree(categories);
      if cats.Failure? {
        return Failure(cats.error);
      }
      var head := Flatten(HeadSlots(h, cats.value));
      var doc := new Document(Elem("rss", RssAttrs, [Elem("channel", [], head)]));
      AppendEpisodes(doc, head, format);
      var date := FinishDate(now, parse);
      if date.Failure? {
        return Failure(date.error);
      }
      var text := format(date.value);
      var items := Items(media, format);
      AppendDates(doc, head + items, text);
      FlattenChannel(h, cats.value, items, text);
      r := Success(doc.root);
    }
  }

  /** The `<pubDate>` and `<lastBuildDate>` elements, both holding `text`,
      are appended to the channel in that order. */
  method AppendDates(doc: Document, kids: seq<Node>, text: string)
    requires doc.root == Elem("rss", RssAttrs, [Elem("channel", [], kids)])
    modifies doc
    ensures doc.root == Elem("rss", RssAttrs, [Elem("channel", [], kids
                         + [TextElem("pubDate", text)] + [TextElem("lastBuildDate", text)])])
  {
    AppendUnderRoot("rss", RssAttrs, "channel", [], kids, TextElem("pubDate", text));
    doc.AppendToFirstNamed("channel", TextElem("pubDate", text));
    AppendUnderRoot("rss", RssAttrs, "channel", [], kids + [TextElem("pubDate", text)],
                    TextElem("lastBuildDate", text));
    doc.AppendToFirstNamed("channel", TextElem("lastBuildDate", text));
  }

  /** Appending episode i's `<item>` to the channel extends the channel's
      items by that episode. */
  lemma EpisodeAppended(head: seq<Node>, ms: seq<PodcastMedia.Media>, i: nat, format: Timestamp -> string)
    requires i < |ms|
    ensures var root := Elem("rss", RssAttrs, [Elem("channel", [], head + Items(ms[..i], format))]);
      && Has(root, "channel")
      && AppendToFirst(root, "channel", PodcastMedia.ItemNode(ms[i], format))
         == Elem("rss", RssAttrs, [Elem("channel", [], head + Items(ms[..i + 1], format))])
  {
    var item := PodcastMedia.ItemNode(ms[i], format);
    AppendUnderRoot("rss", RssAttrs, "channel", [], head + Items(ms[..i], format), item);
    ItemsSnoc(ms, i, format);
    assert head + Items(ms[..i + 1], format) == (head + Items(ms[..i], format)) + [item];
  }

  /** `d` is a DateTime no earlier than any of the episodes `ms`. */
  predicate NoEarlierThanAll(d: DateField, ms: seq<PodcastMedia.Media>)
  {
    d.Parsed? && forall j :: 0 <= j < |ms| ==> ms[j].pubDate.instant <= d.t.instant
  }

  /** One loop pass keeps the stored date no earlier than every episode seen. */
  lemma RunningMax(d: DateField, d': DateField, ms: seq<PodcastMedia.Media>, i: nat)
    requires i < |ms| && d' == Step(d, ms[i].pubDate)
    requires i > 0 ==> NoEarlierThanAll(d, ms[..i])
    ensures NoEarlierThanAll(d', ms[..i + 1])
  {
    assert forall j :: 0 <= j < i ==> ms[..i + 1][j] == ms[..i][j];
  }

  lemma LoopDateSnoc(d: DateField, ms: seq<PodcastMedia.Media>, i: nat)
    requires i < |ms|
    ensures LoopDate(d, ms[..i + 1]) == Step(LoopDate(d, ms[..i]), ms[i].pubDate)
  {
    assert ms[..i + 1][..i] == ms[..i];
  }

  lemma FlattenChannel(h: Header, cats: seq<Node>, items: seq<Node>, date: string)
    ensures Flatten(ChannelSlots(h, cats, items, date))
         == Flatten(HeadSlots(h, cats)) + items + [TextElem("pubDate", date)] + [TextElem("lastBuildDate", date)]
  {
    var head := HeadSlots(h, cats);
    var withItems := head + [items];
    var withDate := withItems + [[TextElem("pubDate", date)]];
    assert ChannelSlots(h, cats, items, date) == withDate + [[TextElem("lastBuildDate", date)]];
    FlattenSnoc(head, items);
    FlattenSnoc(withItems, [TextElem("pubDate", date)]);
    FlattenSnoc(withDate, [TextElem("lastBuildDate", date)]);
  }
}

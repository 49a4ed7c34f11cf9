/**
 One podcast episode (src/Torann/PodcastFeed/Media.php): the record is
 normalised once, when the episode is created, and later rendered as one
 `<item>` appended to the feed's channel.
 */
module PodcastMedia {
  import opened Wrappers
  import opened Php
  import opened Dates
  import opened Dom

  /** An episode as its constructor leaves it: every text field holds the
      `htmlspecialchars` form of the input value, and the publish date has
      been parsed. Nothing changes it afterwards. */
  datatype Media = Media(
    title: string,
    itunesTitle: string,
    subtitle: string,
    description: string,
    pubDate: Timestamp,
    url: string,
    guid: string,
    mimeType: string,
    duration: string,
    explicit: string,
    author: string,
    season: string,
    episode: string,
    image: string,
    length: string,
    link: string,
    episodeType: string)

  /** The keys `new Media($data)` reads. */
  datatype Key =
    | Title | ItunesTitle | Subtitle | Description | PublishAt | Url | Guid | Type | Duration
    | Explicit | Author | Season | Episode | Image | Length | Link | EpisodeType

  function KeyName(k: Key): string
  {
    match k
    case Title => "title"
    case ItunesTitle => "itunes_title"
    case Subtitle => "subtitle"
    case Description => "description"
    case PublishAt => "publish_at"
    case Url => "url"
    case Guid => "guid"
    case Type => "type"
    case Duration => "duration"
    case Explicit => "explicit"
    case Author => "author"
    case Season => "season"
    case Episode => "episode"
    case Image => "image"
    case Length => "length"
    case Link => "link"
    case EpisodeType => "episode_type"
  }

  /** The value a missing key falls back to: `'full'` for the episode type,
      null for everything else. */
  function DefaultFor(k: Key): Value
  {
    if k == EpisodeType then Str("full") else Null
  }

  /** The stored text field that key `k` fills (the publish date is parsed,
      so it has none). */
  function Field(m: Media, k: Key): string
    requires k != PublishAt
  {
    match k
    case Title => m.title
    case ItunesTitle => m.itunesTitle
    case Subtitle => m.subtitle
    case Description => m.description
    case Url => m.url
    case Guid => m.guid
    case Type => m.mimeType
    case Duration => m.duration
    case Explicit => m.explicit
    case Author => m.author
    case Season => m.season
    case Episode => m.episode
    case Image => m.image
    case Length => m.length
    case Link => m.link
    case EpisodeType => m.episodeType
  }

  /** The record has the types the class documents: scalars everywhere,
      and an integer (or nothing) for the season and episode numbers.
      An array would make `htmlspecialchars` throw a TypeError. */
  predicate WellTyped(data: Record)
  {
    && (forall k: Key :: KeyName(k) in data ==> !data[KeyName(k)].Arr?)
    && ("season" in data ==> IntegerLike(data["season"]))
    && ("episode" in data ==> IntegerLike(data["episode"]))
  }

  /** `getValue($data, $key, $default)`: the looked-up value, escaped. */
  function GetValue(data: Record, key: string, default: Value): string
    requires !default.Arr? && (key in data ==> !data[key].Arr?)
  {
    HtmlSpecialChars(ArrayGet(data, key, default))
  }

  /** The stored value for key `k` of record `data`. */
  function Normalised(data: Record, k: Key): string
    requires WellTyped(data)
  {
    GetValue(data, KeyName(k), DefaultFor(k))
  }

  /** `new Media($data)`. The constructor escapes every field and then turns
      the escaped `publish_at` text into a DateTime; when that text cannot be
      parsed the DateTime constructor throws and no episode exists.
      `parse` is PHP's date parser (it reads "" as the current time). */
  function NewMedia(data: Record, parse: string -> Option<Timestamp>): (r: Result<Media, FeedError>)
    requires WellTyped(data)
    ensures var raw := Normalised(data, PublishAt);
      && (r.Success? <==> parse(raw).Some?)
      && (r.Failure? ==> r.error == InvalidDate(raw))
      && (r.Success? ==> r.value.pubDate == parse(raw).value)
  {
    var raw := Normalised(data, PublishAt);
    match parse(raw)
    case None => Failure(InvalidDate(raw))
    case Some(date) =>
      Success(Media(
        title := Normalised(data, Title),
        itunesTitle := Normalised(data, ItunesTitle),
        subtitle := Normalised(data, Subtitle),
        description := Normalised(data, Description),
        pubDate := date,
        url := Normalised(data, Url),
        guid := Normalised(data, Guid),
        mimeType := Normalised(data, Type),
        duration := Normalised(data, Duration),
        explicit := Normalised(data, Explicit),
        author := Normalised(data, Author),
        season := Normalised(data, Season),
        episode := Normalised(data, Episode),
        image := Normalised(data, Image),
        length := Normalised(data, Length),
        link := Normalised(data, Link),
        episodeType := Normalised(data, EpisodeType)))
  }

  /** Every stored text field is `htmlspecialchars` of the record's value
      for its key, or of the key's default when the key is missing. */
  lemma NewMediaStores(data: Record, parse: string -> Option<Timestamp>, k: Key)
    requires WellTyped(data) && NewMedia(data, parse).Success? && k != PublishAt
    ensures Field(NewMedia(data, parse).value, k) == Normalised(data, k)
  {
    match k
    case Title =>
    case ItunesTitle =>
    case Subtitle =>
    case Description =>
    case Url =>
    case Guid =>
    case Type =>
    case Duration =>
    case Explicit =>
    case Author =>
    case Season =>
    case Episode =>
    case Image =>
    case Length =>
    case Link =>
    case _ =>
  }

  /** Decoding a stored text field gives back PHP's string form of the
      record's value, or of the default when the key is missing. */
  lemma NewMediaDecodes(data: Record, parse: string -> Option<Timestamp>, k: Key)
    requires WellTyped(data) && NewMedia(data, parse).Success? && k != PublishAt
    ensures Unescape(Field(NewMedia(data, parse).value, k))
         == StringOf(if KeyName(k) in data then data[KeyName(k)] else DefaultFor(k))
  {
    NewMediaStores(data, parse, k);
    HtmlSpecialCharsDecodes(if KeyName(k) in data then data[KeyName(k)] else DefaultFor(k));
  }

  lemma FullUnescaped()
    ensures HtmlSpecialChars(Str("full")) == "full"
  {
    var full := "full";
    assert forall k :: 0 <= k < |full| ==> !IsSpecial(full[k]);
    EscapePlain(full);
  }

  /** The episode type is `'full'` exactly when the key is absent (or given
      as `'full'`); a key given as null or "" stores "". */
  lemma EpisodeTypeDefault(data: Record, parse: string -> Option<Timestamp>)
    requires WellTyped(data) && NewMedia(data, parse).Success?
    ensures "episode_type" !in data ==> NewMedia(data, parse).value.episodeType == "full"
    ensures "episode_type" in data ==>
      Unescape(NewMedia(data, parse).value.episodeType) == StringOf(data["episode_type"])
  {
    NewMediaDecodes(data, parse, EpisodeType);
    if "episode_type" !in data {
      FullUnescaped();
    }
  }

  // ---------------------------------------------------------------------
  // The <item> subtree

  /** `$x > 0` on a stored season or episode number: the number when the
      comparison is true, None otherwise. */
  function PositiveNumber(s: string): Option<int>
  {
    match ParseDecimal(s)
    case Some(n) => if n > 0 then Some(n) else None
    case None => None
  }

  /** The text of `itunes:explicit`: "false" for null, a falsy string or
      'no'; "true" for everything else. */
  function ExplicitText(e: string): string
  {
    if !Truthy(e) || e == "no" then "false" else "true"
  }

  function Opt(present: bool, n: Node): seq<Node>
  {
    if present then [n] else []
  }

  function NumberElem(name: string, s: string): seq<Node>
  {
    match PositiveNumber(s)
    case Some(n) => [TextElem(name, IntToDecimal(IntVal(n)))]
    case None => []
  }

  lemma NumberElemNamed(name: string, s: string)
    ensures AllNamed(NumberElem(name, s), name)
  {
    match PositiveNumber(s)
    case None =>
    case Some(n) =>
      var text := IntToDecimal(IntVal(n));
      assert NumberElem(name, s) == [TextElem(name, text)];
  }

  /** The fixed order of an item's children. */
  const ItemOrder: seq<string> :=
    ["title", "itunes:subtitle", "itunes:title", "description", "content:encoded", "pubDate",
     "link", "enclosure", "author", "itunes:author", "itunes:season", "itunes:episode",
     "itunes:episodeType", "itunes:duration", "itunes:explicit", "guid", "itunes:image"]

  /** What `addToDom` writes for each name of `ItemOrder`. */
  function ItemSlots(m: Media, format: Timestamp -> string): seq<seq<Node>>
  {
    [ [TextElem("title", m.title)],
      Opt(Truthy(m.subtitle), TextElem("itunes:subtitle", m.subtitle)),
      Opt(Truthy(m.itunesTitle), TextElem("itunes:title", m.itunesTitle)),
      [CDataElem("description", m.description)],
      [CDataElem("content:encoded", m.description)],
      [TextElem("pubDate", format(m.pubDate))],
      [CDataElem("link", m.link)],
      [Elem("enclosure", [("url", m.url), ("type", m.mimeType), ("length", m.length)], [])],
      Opt(Truthy(m.author), TextElem("author", m.author)),
      Opt(Truthy(m.author), TextElem("itunes:author", m.author)),
      NumberElem("itunes:season", m.season),
      NumberElem("itunes:episode", m.episode),
      Opt(Truthy(m.episodeType), TextElem("itunes:episodeType", m.episodeType)),
      [TextElem("itunes:duration", m.duration)],
      [TextElem("itunes:explicit", ExplicitText(m.explicit))],
      [Elem("guid", [("isPermaLink", "false")], [CData(m.guid)])],
      Opt(Truthy(m.image), Elem("itunes:image", [("href", m.image)], []))
    ]
  }

  /** The `<item>` subtree `addToDom` builds for an episode. */
  function ItemNode(m: Media, format: Timestamp -> string): Node
  {
    Elem("item", [], Flatten(ItemSlots(m, format)))
  }

  // ItemSlotsNamedHead to ItemSlotsNamedTail state one fact, that slot j
  // holds only elements named ItemOrder[j], in five parts so that each stays
  // small for the solver.

  lemma ItemSlotsNamedHead(m: Media, format: Timestamp -> string)
    ensures forall j :: 0 <= j < 3 ==> AllNamed(ItemSlots(m, format)[j], ItemOrder[j])
  {
    var parts := ItemSlots(m, format);
    assert parts[0] == [TextElem("title", m.title)];
    assert parts[1] == Opt(Truthy(m.subtitle), TextElem("itunes:subtitle", m.subtitle));
    assert parts[2] == Opt(Truthy(m.itunesTitle), TextElem("itunes:title", m.itunesTitle));
  }

  lemma ItemSlotsNamedHead2(m: Media, format: Timestamp -> string)
    ensures forall j :: 3 <= j < 6 ==> AllNamed(ItemSlots(m, format)[j], ItemOrder[j])
  {
    var parts := ItemSlots(m, format);
    assert parts[3] == [CDataElem("description", m.description)];
    assert parts[4] == [CDataElem("content:encoded", m.description)];
    assert parts[5] == [TextElem("pubDate", format(m.pubDate))];
  }

  lemma ItemSlotsNamedMiddle(m: Media, format: Timestamp -> string)
    ensures forall j :: 6 <= j < 9 ==> AllNamed(ItemSlots(m, format)[j], ItemOrder[j])
  {
    var parts := ItemSlots(m, format);
    assert parts[6] == [CDataElem("link", m.link)];
    assert parts[7] == [Elem("enclosure", [("url", m.url), ("type", m.mimeType), ("length", m.length)], [])];
    assert parts[8] == Opt(Truthy(m.author), TextElem("author", m.author));
  }

  lemma ItemSlotsNamedNumbers(m: Media, format: Timestamp -> string)
    ensures forall j :: 9 <= j < 12 ==> AllNamed(ItemSlots(m, format)[j], ItemOrder[j])
  {
    var parts := ItemSlots(m, format);
    NumberElemNamed("itunes:season", m.season);
    NumberElemNamed("itunes:episode", m.episode);
    assert AllNamed(parts[9], ItemOrder[9]);
    assert parts[10] == NumberElem("itunes:season", m.season);
    assert parts[11] == NumberElem("itunes:episode", m.episode);
  }

  lemma ItemSlotsNamedTail(m: Media, format: Timestamp -> string)
    ensures forall j :: 12 <= j < 17 ==> AllNamed(ItemSlots(m, format)[j], ItemOrder[j])
  {
    var parts := ItemSlots(m, format);
    assert AllNamed(parts[12], ItemOrder[12]);
    assert AllNamed(parts[13], ItemOrder[13]);
    assert AllNamed(parts[14], ItemOrder[14]);
    assert AllNamed(parts[15], ItemOrder[15]);
    assert AllNamed(parts[16], ItemOrder[16]);
  }

  lemma ItemOrderDistinct()
    ensures Distinct(ItemOrder)
  {
  }

  lemma ItemSlotted(m: Media, format: Timestamp -> string)
    ensures Slotted(ItemSlots(m, format), ItemOrder) && Distinct(ItemOrder)
  {
    ItemSlotsNamedHead(m, format);
    ItemSlotsNamedHead2(m, format);
    ItemSlotsNamedMiddle(m, format);
    ItemSlotsNamedNumbers(m, format);
    ItemSlotsNamedTail(m, format);
    ItemOrderDistinct();
  }

  /** The children named `ItemOrder[i]` are exactly what slot i wrote. */
  lemma ItemNamed(m: Media, format: Timestamp -> string, i: nat)
    requires i < |ItemOrder|
    ensures Named(ItemNode(m, format).kids, ItemOrder[i]) == ItemSlots(m, format)[i]
  {
    ItemSlotted(m, format);
    NamedSlot(ItemSlots(m, format), ItemOrder, i);
  }

  /** An item's children follow the fixed order of `ItemOrder`. */
  lemma ItemLayout(m: Media, format: Timestamp -> string)
    ensures InOrder(ItemNode(m, format).kids, ItemOrder)
    ensures var kids := ItemNode(m, format).kids;
      forall p :: 0 <= p < |kids| ==> Rank(kids[p], ItemOrder) < |ItemOrder|
  {
    ItemSlotted(m, format);
    SlotOrder(ItemSlots(m, format), ItemOrder);
    SlottedRanks(ItemSlots(m, format), ItemOrder);
  }

  /** title, description, content:encoded, pubDate, link, enclosure,
      duration, explicit and guid are always there, once each. */
  lemma ItemAlways(m: Media, format: Timestamp -> string)
    ensures var kids := ItemNode(m, format).kids;
      && |Named(kids, "title")| == 1
      && |Named(kids, "description")| == 1
      && |Named(kids, "content:encoded")| == 1
      && |Named(kids, "pubDate")| == 1
      && |Named(kids, "link")| == 1
      && |Named(kids, "enclosure")| == 1
      && |Named(kids, "itunes:duration")| == 1
      && |Named(kids, "itunes:explicit")| == 1
      && |Named(kids, "guid")| == 1
  {
    ItemNamed(m, format, 0);
    ItemNamed(m, format, 3);
    ItemNamed(m, format, 4);
    ItemNamed(m, format, 5);
    ItemNamed(m, format, 6);
    ItemNamed(m, format, 7);
    ItemNamed(m, format, 13);
    ItemNamed(m, format, 14);
    ItemNamed(m, format, 15);
  }

  /** itunes:subtitle, itunes:title, author, itunes:author and itunes:image
      appear once when their stored value is truthy, and not at all otherwise. */
  lemma ItemOptional(m: Media, format: Timestamp -> string)
    ensures var kids := ItemNode(m, format).kids;
      && |Named(kids, "itunes:subtitle")| == (if Truthy(m.subtitle) then 1 else 0)
      && |Named(kids, "itunes:title")| == (if Truthy(m.itunesTitle) then 1 else 0)
      && |Named(kids, "author")| == (if Truthy(m.author) then 1 else 0)
      && |Named(kids, "itunes:author")| == (if Truthy(m.author) then 1 else 0)
      && |Named(kids, "itunes:image")| == (if Truthy(m.image) then 1 else 0)
  {
    ItemNamed(m, format, 1);
    ItemNamed(m, format, 2);
    ItemNamed(m, format, 8);
    ItemNamed(m, format, 9);
    ItemNamed(m, format, 16);
  }

  /** `itunes:explicit` is always written once; its text is "false" exactly
      for "", "0" and "no" (the escaped forms of null, false, 0 and 'no'). */
  lemma ExplicitRule(m: Media, format: Timestamp -> string)
    ensures Named(ItemNode(m, format).kids, "itunes:explicit")
         == [TextElem("itunes:explicit", if m.explicit in {"", "0", "no"} then "false" else "true")]
  {
    ItemNamed(m, format, 14);
  }

  /** `itunes:season` and `itunes:episode` appear exactly when the stored
      number is positive, and then hold that number as `intval` reads it:
      a number beyond PHP_INT_MAX prints as PHP_INT_MAX. */
  lemma NumberRule(m: Media, format: Timestamp -> string)
    ensures Named(ItemNode(m, format).kids, "itunes:season")
         == (if ParseDecimal(m.season).Some? && ParseDecimal(m.season).value > 0
             then [TextElem("itunes:season", IntToDecimal(IntVal(ParseDecimal(m.season).value)))] else [])
    ensures Named(ItemNode(m, format).kids, "itunes:episode")
         == (if ParseDecimal(m.episode).Some? && ParseDecimal(m.episode).value > 0
             then [TextElem("itunes:episode", IntToDecimal(IntVal(ParseDecimal(m.episode).value)))] else [])
  {
    ItemNamed(m, format, 10);
    ItemNamed(m, format, 11);
  }

  /** For an episode built from an integer season, `itunes:season` is written
      iff that integer is positive, and its text is the integer. */
  lemma SeasonFromInput(data: Record, parse: string -> Option<Timestamp>, format: Timestamp -> string, n: int)
    requires WellTyped(data) && NewMedia(data, parse).Success?
    requires "season" in data && data["season"] == Int(n)
    ensures Named(ItemNode(NewMedia(data, parse).value, format).kids, "itunes:season")
         == (if n > 0 then [TextElem("itunes:season", IntToDecimal(n))] else [])
  {
    var m := NewMedia(data, parse).value;
    SeasonStored(data, parse, n);
    ParseIntToDecimal(n);
    assert IntegerLike(data["season"]);
    IntValRange(n);
    assert IntVal(n) == n;
    NumberRule(m, format);
  }

  /** An integer season is stored as its decimal text. */
  lemma SeasonStored(data: Record, parse: string -> Option<Timestamp>, n: int)
    requires WellTyped(data) && NewMedia(data, parse).Success?
    requires "season" in data && data["season"] == Int(n)
    ensures NewMedia(data, parse).value.season == IntToDecimal(n)
  {
    NormalisedInt(data, Season, n);
    NewMediaStores(data, parse, Season);
    assert Field(NewMedia(data, parse).value, Season) == NewMedia(data, parse).value.season;
  }

  /** A key given as an integer is stored as the integer's decimal text. */
  lemma NormalisedInt(data: Record, k: Key, n: int)
    requires WellTyped(data) && KeyName(k) in data && data[KeyName(k)] == Int(n)
    ensures Normalised(data, k) == IntToDecimal(n)
  {
    ParseIntToDecimal(n);
    EscapeDecimal(IntToDecimal(n));
  }

  /** `itunes:episodeType` is written once, with the stored text, exactly
      when that text is truthy. */
  lemma EpisodeTypeElement(m: Media, format: Timestamp -> string)
    ensures Named(ItemNode(m, format).kids, "itunes:episodeType")
         == Opt(Truthy(m.episodeType), TextElem("itunes:episodeType", m.episodeType))
  {
    ItemNamed(m, format, 12);
  }

  /** An episode whose record has no `episode_type` still gets an
      `itunes:episodeType` element, with text "full". */
  lemma EpisodeTypeRule(data: Record, parse: string -> Option<Timestamp>, format: Timestamp -> string)
    requires WellTyped(data) && NewMedia(data, parse).Success?
    ensures "episode_type" !in data ==>
      Named(ItemNode(NewMedia(data, parse).value, format).kids, "itunes:episodeType")
        == [TextElem("itunes:episodeType", "full")]
    ensures Named(ItemNode(NewMedia(data, parse).value, format).kids, "itunes:episodeType") != []
        <==> Truthy(NewMedia(data, parse).value.episodeType)
  {
    EpisodeTypeDefault(data, parse);
    EpisodeTypeElement(NewMedia(data, parse).value, format);
  }

  /** description and content:encoded carry the same CDATA text; guid is
      CDATA marked as no permalink; the enclosure carries url, type and
      length. */
  lemma ItemContent(m: Media, format: Timestamp -> string)
    ensures Named(ItemNode(m, format).kids, "description") == [CDataElem("description", m.description)]
    ensures Named(ItemNode(m, format).kids, "content:encoded") == [CDataElem("content:encoded", m.description)]
    ensures Named(ItemNode(m, format).kids, "guid") == [Elem("guid", [("isPermaLink", "false")], [CData(m.guid)])]
    ensures Named(ItemNode(m, format).kids, "enclosure")
         == [Elem("enclosure", [("url", m.url), ("type", m.mimeType), ("length", m.length)], [])]
    ensures Named(ItemNode(m, format).kids, "pubDate") == [TextElem("pubDate", format(m.pubDate))]
  {
    ItemNamed(m, format, 3);
    ItemNamed(m, format, 4);
    ItemNamed(m, format, 5);
    ItemNamed(m, format, 7);
    ItemNamed(m, format, 15);
  }

  /** `$media->addToDom($dom)`: appends the episode's `<item>` as the last
      child of the first `<channel>` of the document. */
  method AddToDom(m: Media, doc: Document, format: Timestamp -> string)
    requires Has(doc.root, "channel")
    modifies doc
    ensures doc.root == AppendToFirst(old(doc.root), "channel", ItemNode(m, format))
  {
    doc.AppendToFirstNamed("channel", ItemNode(m, format));
  }
}

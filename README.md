# Podcast feed builder, modelled in Dafny

This project models the feed builder of the `torann/podcastfeed` PHP package. Two classes make up that builder:

- **`Manager`** (`src/Torann/PodcastFeed/Manager.php`) holds the channel header and the list of episodes. Its header fields are title, pubDate, feed type, description, link, image, author, categories, explicit, subtitle, language, email, copyright and locked. It renders the `<rss><channel>` document.
- **`Media`** (`src/Torann/PodcastFeed/Media.php`) is one episode. Its constructor normalises the record it is given, and `addToDom` appends the episode's `<item>` to the channel.

The project has four files:

- `php.dfy` models the PHP values the builder receives and the runtime functions it relies on:
  - `htmlspecialchars` with the default flags of PHP 8.1 and later, which escape `'` as well, plus `Unescape`, a left inverse of it used to state that escaping loses nothing;
  - the `(string)` conversion, and `intval`, saturated to 64 bits;
  - truthiness and `== null` on strings;
  - DateTime values, as a totally ordered timestamp.
- `dom.dfy` models the DOM document as a tree of element, text and CDATA nodes. It also defines a vocabulary for talking about one element name among an element's children (`Named`, `InOrder`, `Slotted`).
- `media.dfy` models `Media`.
  - An episode is an immutable `Media` value built by `NewMedia`.
  - Its `<item>` subtree is the function `ItemNode`.
  - `AddToDom` appends that subtree to the first `<channel>` of a `Document` object.
- `manager.dfy` models `Manager` as a class with the header fields and the `media` list. It has these methods:
  - `SetHeader` overwrites the fourteen fields.
  - `AddMedia` appends an episode.
  - `Generate` builds the document, running the episode loop that keeps the channel date up to date.
  - `Generate` is specified by the function `FeedDocument`, and the date it leaves in the object by `StoredDate`. The lemmas about the category tree, the channel layout and the dates are stated about those functions.

Date parsing (`new DateTime($text)`), RFC 2822 formatting (`format(DATE_RFC2822)`) and the clock are library calls. Every operation that uses them takes them as parameters `parse`, `format` and `now`. `parse` returns `None` where PHP's DateTime constructor throws.

PHP 8.1 or later, 64-bit, is assumed throughout. Two rules of the language shape the model:

- **`htmlspecialchars(null)` is `""`.** Every escaped field is therefore a string. The loose `== null` guards and the truthiness tests treat `""` as absent. The strict `!== null` guards on the channel's explicit, language and copyright (Manager.php:339, 346, 352) always pass, so those three elements are always written.
- **A string is always less than a DateTime.** Comparing a string with a DateTime (Manager.php:367) cannot convert either side, and PHP then ranks the object above the string.

**The channel date.** `setHeader` stores the header pubDate as escaped text. The episode loop compares that text with each episode's DateTime (Manager.php:363-369). By the rule above, the comparison is always true, so the first episode's date replaces the header text, and the loop then keeps a running maximum.

- With at least one episode, the header text makes no difference (`HeaderDateReplaced`).
- The header text is only used, parsed, when there are no episodes (`DateWithoutEpisodes`).
- `setHeader` assigns `pubDate` twice (Manager.php:136 and 142). `StoreRequired` performs both assignments, with the same value.

## Model

| member | source | states |
|---|---|---|
| Php.ArrayGet | src/Torann/PodcastFeed/Manager.php:165 | definition: `array_get` on a key without dots, the entry if present, else the fallback |
| Php.StringOf | src/Torann/PodcastFeed/Media.php:179 | definition: PHP's string conversion of a scalar (null and false as "", true as "1", an integer in decimal) |
| Php.Escape | src/Torann/PodcastFeed/Manager.php:172 | definition: `htmlspecialchars` on text, replacing `&`, `"`, `'`, `<` and `>` by their entities; partners `UnescapeEscape` and `EscapeNoMarkup` |
| Php.HtmlSpecialChars | src/Torann/PodcastFeed/Media.php:179 | definition: `htmlspecialchars` of a scalar, escaping its string conversion; partner `HtmlSpecialCharsDecodes` |
| Php.IntVal | src/Torann/PodcastFeed/Media.php:261 | definition: `intval` of an integer string, saturated to the 64-bit range |
| Php.IntValRange | src/Torann/PodcastFeed/Media.php:261 | `intval` always gives a 64-bit integer, and leaves one unchanged |
| PodcastMedia.GetValue | src/Torann/PodcastFeed/Media.php:175-180 | definition: the looked-up value or the default, escaped; partner `NewMediaDecodes` |
| PodcastMedia.ItemSlots | src/Torann/PodcastFeed/Media.php:207-293 | definition: what `addToDom` writes for each child name, in order, with each guard; partners `ItemLayout`, `ItemAlways`, `ItemOptional` and the rule lemmas |
| PodcastMedia.ItemNode | src/Torann/PodcastFeed/Media.php:203-293 | definition: the `<item>` element holding those children in slot order |
| PodcastMedia.NumberElem | src/Torann/PodcastFeed/Media.php:260-267 | definition: the season or episode element, written when the stored number is greater than 0; partner `NumberRule` |
| PodcastManager.Lookup | src/Torann/PodcastFeed/Manager.php:165 | definition: the caller's entry, else the configured default, else null |
| PodcastManager.Resolved | src/Torann/PodcastFeed/Manager.php:132-153 | definition: the header `setHeader` leaves, each field `getValue` of its key; partners `ResolvedField`, `ResolvedFieldLocal`, `DefaultHeader` |
| PodcastManager.CategoryNodes | src/Torann/PodcastFeed/Manager.php:320-337 | definition: the category elements, or the TypeError; partners `CategoriesSucceed`, `CategoryTopLevel`, `CategorySecondLevel` |
| PodcastManager.TopNode | src/Torann/PodcastFeed/Manager.php:321-336 | definition: a top-level category named by its key, with its subcategories |
| PodcastManager.SubNode | src/Torann/PodcastFeed/Manager.php:323-334 | definition: a second-level category, named by its key when its value is an array, else by its value |
| PodcastManager.LeafNode | src/Torann/PodcastFeed/Manager.php:327-330 | definition: a third-level category named by its value; an array value is the TypeError |
| PodcastManager.Step | src/Torann/PodcastFeed/Manager.php:362-369 | definition: one pass of the episode loop on the stored date; partner `Manager.ConsiderDate` |
| PodcastManager.LoopDate | src/Torann/PodcastFeed/Manager.php:358-371 | definition: the stored date after the loop; partners `LoopDateBound`, `LoopDateLatest`, `LoopDateStable` |
| PodcastManager.FinalDate | src/Torann/PodcastFeed/Manager.php:373-379 | definition: the date written out, "now", the stored DateTime or the parsed text, or the parse error; partner `DateWithoutEpisodes` |
| PodcastManager.HeadSlots | src/Torann/PodcastFeed/Manager.php:245-355 | definition: what `generate` writes before the episodes, one slot per child name, with each guard; partners the `Channel*` lemmas |
| PodcastManager.Channel | src/Torann/PodcastFeed/Manager.php:245-383 | definition: the `<channel>` element, head slots, then items, then the two dates |
| PodcastManager.FeedDocument | src/Torann/PodcastFeed/Manager.php:223-387 | definition: the document `generate` returns, or the error it throws; partners `FeedOutcome`, `RegenerateStable` |
| PodcastManager.StoredDate | src/Torann/PodcastFeed/Manager.php:358-379 | definition: the date `generate` leaves in the object; partners `FeedOutcome`, `RegenerateStable` |
| Dom.FirstHolding | src/Torann/PodcastFeed/Media.php:200-201 | the child whose subtree holds the first element of a name in document order: it holds one, and no earlier child does |
| Dom.AppendToFirst | src/Torann/PodcastFeed/Media.php:200-205 | the first element of a name in document order gains the new child last; the root keeps its name and attributes |
| Dom.Document.AppendToFirstNamed | src/Torann/PodcastFeed/Media.php:200-205 | the document's tree becomes `AppendToFirst` of the old tree |
| Php.HtmlSpecialCharsDecodes | src/Torann/PodcastFeed/Media.php:175-180 | decoding the escaped form of a scalar gives back its PHP string conversion; null escapes to "" |
| Php.UnescapeEscape | src/Torann/PodcastFeed/Manager.php:172 | `htmlspecialchars` loses nothing: decoding the escaped text gives back the original text |
| Php.EscapeNoMarkup | src/Torann/PodcastFeed/Manager.php:172 | escaped text contains no `<`, `>`, `"` or `'`, so it cannot close a text node or an attribute value |
| Php.ParseIntToDecimal | src/Torann/PodcastFeed/Media.php:261 | the decimal text of an integer reads back as that integer |
| PodcastMedia.NewMedia | src/Torann/PodcastFeed/Media.php:140-164 | an episode exists iff its escaped `publish_at` text parses; its pubDate is that parsed instant; otherwise the error names the text that failed |
| PodcastMedia.NewMediaDecodes | src/Torann/PodcastFeed/Media.php:175-180 | every stored field decodes to the caller's value for its key, else the key's default |
| PodcastMedia.EpisodeTypeDefault | src/Torann/PodcastFeed/Media.php:158 | an absent `episode_type` is stored as "full"; a present one decodes to the caller's value, even when that value is empty |
| PodcastMedia.SeasonStored | src/Torann/PodcastFeed/Media.php:153 | an integer season is stored as its decimal text |
| PodcastMedia.AddToDom | src/Torann/PodcastFeed/Media.php:197-205 | the document becomes its old tree with the episode's `<item>` appended as the last child of the first `<channel>`; nothing else changes |
| PodcastMedia.ItemLayout | src/Torann/PodcastFeed/Media.php:207-293 | the item's children follow the fixed order title, itunes:subtitle, itunes:title, description, content:encoded, pubDate, link, enclosure, author, itunes:author, itunes:season, itunes:episode, itunes:episodeType, itunes:duration, itunes:explicit, guid, itunes:image, and no child outside that list |
| PodcastMedia.ItemAlways | src/Torann/PodcastFeed/Media.php:207-286 | title, description, content:encoded, pubDate, link, enclosure, duration, explicit and guid appear exactly once in every item |
| PodcastMedia.ItemOptional | src/Torann/PodcastFeed/Media.php:211-220 | itunes:subtitle, itunes:title, author, itunes:author and itunes:image each appear once when their value is truthy and never otherwise |
| PodcastMedia.ExplicitRule | src/Torann/PodcastFeed/Media.php:279-280 | `itunes:explicit` reads "false" exactly when the stored value is "", "0" or "no", and "true" otherwise |
| PodcastMedia.NumberRule | src/Torann/PodcastFeed/Media.php:260-267 | `itunes:season` and `itunes:episode` appear iff the stored number is greater than 0, with the number `intval` reads as text: a number beyond 9223372036854775807 prints as 9223372036854775807 |
| PodcastMedia.SeasonFromInput | src/Torann/PodcastFeed/Media.php:260-263 | for an integer season n in the record, `itunes:season` holds n when n > 0 and is absent otherwise |
| PodcastMedia.EpisodeTypeElement | src/Torann/PodcastFeed/Media.php:268-272 | `itunes:episodeType` appears iff the stored value is non-empty in PHP's sense (neither "" nor "0"), and then holds it |
| PodcastMedia.EpisodeTypeRule | src/Torann/PodcastFeed/Media.php:268-272 | an episode created without `episode_type` has `itunes:episodeType` "full"; the element is present iff the stored value is neither "" nor "0" |
| PodcastMedia.ItemContent | src/Torann/PodcastFeed/Media.php:222-286 | description and content:encoded carry the same CDATA; guid is CDATA with `isPermaLink="false"`; the enclosure's url, type and length are the stored values; pubDate is the formatted parsed date |
| PodcastManager.GetValue | src/Torann/PodcastFeed/Manager.php:163-173 | categories are returned exactly as looked up; every other key yields a string |
| PodcastManager.GetValueDecodes | src/Torann/PodcastFeed/Manager.php:165-172 | a non-category value decodes to the caller's value, else the default; with neither it is "" |
| PodcastManager.ResolvedField | src/Torann/PodcastFeed/Manager.php:132-153 | each of the fourteen fields holds `getValue` of its own key: categories unescaped, every other field escaped and decoding to the resolved value |
| PodcastManager.ResolvedFieldLocal | src/Torann/PodcastFeed/Manager.php:132-153 | a field depends only on the latest record's entry for its own key: two records that agree on a key give that field the same value |
| PodcastManager.DefaultHeader | src/Torann/PodcastFeed/Manager.php:119-125 | with an empty record every field is its escaped configured default, or "" without one; categories are the unescaped default, or null |
| PodcastManager.Manager.constructor | src/Torann/PodcastFeed/Manager.php:119-125 | keeps the configuration, leaves the header that `setHeader([])` gives, and starts with no episodes |
| PodcastManager.Manager.SetHeader | src/Torann/PodcastFeed/Manager.php:132-153 | the header becomes the one resolved from this record alone (last call wins); the episodes are unchanged |
| PodcastManager.Manager.StoreRequired | src/Torann/PodcastFeed/Manager.php:134-143 | assigns the required fields and changes no other field |
| PodcastManager.Manager.StoreOptional | src/Torann/PodcastFeed/Manager.php:145-152 | assigns the optional fields and changes no other field |
| PodcastManager.Manager.AddMedia | src/Torann/PodcastFeed/Manager.php:180-183 | the episode list grows by exactly the new episode at its end; if the episode's date cannot be parsed, the error is returned and the list is unchanged |
| PodcastManager.CategoryTree | src/Torann/PodcastFeed/Manager.php:319-337 | the nested category loops produce exactly the specified category tree, or the TypeError |
| PodcastManager.SubcategoryTree | src/Torann/PodcastFeed/Manager.php:323-335 | the second-level loop produces one category per entry, or fails on an array at the third level |
| PodcastManager.LeafTree | src/Torann/PodcastFeed/Manager.php:327-330 | the third-level loop produces one category per value, or fails on an array value |
| PodcastManager.CategoriesSucceed | src/Torann/PodcastFeed/Manager.php:320-337 | the category tree is built iff no array sits below the second level; otherwise the error is the category TypeError |
| PodcastManager.CategoryTopLevel | src/Torann/PodcastFeed/Manager.php:320-322 | one top-level category per key, in key order, with text equal to the key; an array value gives one child per entry, anything else none |
| PodcastManager.CategorySecondLevel | src/Torann/PodcastFeed/Manager.php:323-334 | an array entry gives a child named by its key with one leaf per value, in order; a scalar entry gives a child whose text is that value |
| PodcastManager.CategoryExample | src/Torann/PodcastFeed/Manager.php:319-337 | `["Technology" => ["Software", "Tech News"]]` gives Technology with children Software and Tech News |
| PodcastManager.LoopDateBound | src/Torann/PodcastFeed/Manager.php:358-371 | after the loop over at least one episode the date is a DateTime no earlier than any episode's date, and never earlier than a DateTime it started from |
| PodcastManager.LoopDateLatest | src/Torann/PodcastFeed/Manager.php:358-371 | starting from header text, the loop ends on the date of one episode that is strictly later than every episode before it |
| PodcastManager.HeaderDateReplaced | src/Torann/PodcastFeed/Manager.php:363-369 | with at least one episode, the header's date text does not affect the result of the loop |
| PodcastManager.LoopDateStable | src/Torann/PodcastFeed/Manager.php:358-371 | a DateTime no earlier than every episode survives the loop unchanged |
| PodcastManager.DateWithoutEpisodes | src/Torann/PodcastFeed/Manager.php:374-379 | with no episodes, an empty header date becomes now; otherwise the header text is parsed, and unreadable text is an error |
| PodcastManager.ItemsInOrder | src/Torann/PodcastFeed/Manager.php:358-361 | one `<item>` per episode, in the order of the episode list |
| PodcastManager.ChannelLayout | src/Torann/PodcastFeed/Manager.php:246-383 | the channel's children follow the fixed order title, itunes:subtitle, itunes:type, link, atom:link, description, itunes:summary, image, itunes:image, itunes:author, podcast:locked, managingEditor, itunes:owner, itunes:category, itunes:explicit, language, copyright, item, pubDate, lastBuildDate, and no child outside that list |
| PodcastManager.ChannelAlways | src/Torann/PodcastFeed/Manager.php:246-281 | title and link are written once as text; description is written once as CDATA and repeated as itunes:summary |
| PodcastManager.ChannelSubtitle | src/Torann/PodcastFeed/Manager.php:250-253 | itunes:subtitle is written iff the subtitle is non-empty |
| PodcastManager.ChannelFeedType | src/Torann/PodcastFeed/Manager.php:256-261 | itunes:type is written iff feed_type is exactly "serial" or "episodic" |
| PodcastManager.ChannelSelfLink | src/Torann/PodcastFeed/Manager.php:268-272 | atom:link has href link + "/rss", rel "self" and type "application/rss+xml" |
| PodcastManager.ChannelImage | src/Torann/PodcastFeed/Manager.php:284-289 | the image element holds the title, the link and the image url |
| PodcastManager.ChannelManagingEditor | src/Torann/PodcastFeed/Manager.php:309-316 | managingEditor, with text `email (email)`, is written iff the email is non-empty |
| PodcastManager.ChannelOwner | src/Torann/PodcastFeed/Manager.php:306-317 | itunes:owner always holds itunes:name with the author, followed by itunes:email exactly when the email is non-empty |
| PodcastManager.ChannelAuthorship | src/Torann/PodcastFeed/Manager.php:292-303 | itunes:image (href = the image), itunes:author and podcast:locked (owner = the email, text = the locked value) are each written once |
| PodcastManager.ChannelCategories | src/Torann/PodcastFeed/Manager.php:320-337 | the channel's itunes:category children are exactly the category tree, in order |
| PodcastManager.ChannelRights | src/Torann/PodcastFeed/Manager.php:339-355 | itunes:explicit, language and copyright are always written with the stored text |
| PodcastManager.ChannelItems | src/Torann/PodcastFeed/Manager.php:358-361 | the channel's items are the episodes' item subtrees, one per episode, in list order |
| PodcastManager.ChannelDates | src/Torann/PodcastFeed/Manager.php:380-383 | pubDate and lastBuildDate are each written once, with the same formatted date |
| PodcastManager.FeedOutcome | src/Torann/PodcastFeed/Manager.php:223-387 | generation succeeds iff the categories are at most three levels deep and there is an episode, or the header date is empty or readable; with episodes, the stored date is no earlier than any episode's date and equals one of them |
| PodcastManager.RegenerateStable | src/Torann/PodcastFeed/Manager.php:358-383 | generating again from the date a successful generation stored gives the same document and the same date, whatever the clock says |
| PodcastManager.Manager.AppendEpisodes | src/Torann/PodcastFeed/Manager.php:358-371 | the loop appends every episode's item to the channel in order, and leaves the running-maximum date in the object |
| PodcastManager.Manager.ConsiderDate | src/Torann/PodcastFeed/Manager.php:363-369 | one loop step: an empty or textual date, or one earlier than the episode's date, is replaced by the episode's date |
| PodcastManager.Manager.FinishDate | src/Torann/PodcastFeed/Manager.php:374-379 | an empty date becomes now and text is parsed, and the resulting DateTime is stored; unreadable text is an error and the object keeps its text |
| PodcastManager.AppendDates | src/Torann/PodcastFeed/Manager.php:380-383 | appends pubDate and then lastBuildDate, with the same text, at the end of the channel |
| PodcastManager.Manager.Generate | src/Torann/PodcastFeed/Manager.php:223-387 | returns the specified feed document, or the error generation throws, and leaves in the object the date generation stores |

## Left out

- Serialisation is not modelled: `toString` and `saveXML` (Manager.php:190-193), XML text, namespace processing and entity handling. The document is a node tree.
- `toDom` (Manager.php:200-203) only returns `generate()`, so it is not modelled separately from `Generate`.
- `createElement($name, $text)` is modelled as an element with a single text node, even for empty text, where the DOM creates the element with no child. DOM's own treatment of `&` entities in that text is not modelled.
- Date parsing, RFC 2822 formatting and the clock are parameters, and their behaviour is not modelled.
  - A DateTime is an instant plus a display offset, compared by instant.
  - `getPubDate` (Media.php:187-190) is the `pubDate` field of `Media`, set once by `NewMedia`.
- `array_get` with dotted keys is not modelled; no key read here contains a dot. The configuration is given as its `defaults` table, and its other entries are not read.
- Array values where the source expects a string or an integer are excluded by preconditions (`WellTyped`, `HeaderScalars`). In PHP 8 those arrays make `htmlspecialchars` throw a TypeError. The one array-driven TypeError the model keeps is the category tree's, as `NonStringCategory`.
- PodcastMedia.NumberRule: season and episode are limited to 64-bit integers, booleans, null and decimal strings of any length. Comparing a non-numeric string with 0, and `intval` of such a string, are not modelled.
- Floats and objects are not PHP values of the model. A plain DateTime as `publish_at` would make `htmlspecialchars` throw a TypeError (Media.php:179), and an object with `__toString`, such as a Carbon date, would be converted to its text; neither is modelled, so the `is_string` test at Media.php:161 always holds.
- `htmlspecialchars`' `ENT_SUBSTITUTE` flag, which replaces invalid UTF-8 with U+FFFD, is not modelled; text is a sequence of characters.
- Category keys are strings. PHP's integer array keys appear as their decimal text.
- PodcastMedia.AddToDom: the item subtree is built whole and then appended, rather than appended empty and filled child by child. Nothing else observes the document in between.
- PodcastManager.Manager.Generate: the part of the channel before the episodes is built as one list and placed in the new document, rather than appended element by element.
- PodcastManager.Manager.SetHeader: the fourteen field assignments are grouped into two methods, `StoreRequired` and `StoreOptional`.
- Media is an immutable value, since nothing changes an episode after its constructor. Object identity and aliasing of episodes are not modelled.
- PHP 8.0 and earlier are not modelled: there, `htmlspecialchars` without flags leaves `'` unescaped.
- The Laravel service provider, the facade and the configuration file are not part of this model.

/** The Publish2 client: the query `search` sends, and the result objects
    built from the decoded feed.

    Every result object takes the decoded JSON dict itself as its attribute
    store (`self.__dict__ = d`), so building a Link or a Feed rewrites that
    dict in place. The model keeps this aliasing: a decoded JSON object is a
    `PyDict` on the heap, an instance is its class together with the dict it
    lives in, and the constructors are methods that modify the dicts. */
module Publish2 {
  import opened Python
  import opened Http

  const BaseUrl := "http://www.publish2.com/search/links.json?"

  /** A naive local datetime, as `utils.parsedate` returns it. */
  datatype DateTime = DateTime(year: int, month: int, day: int, hour: int, minute: int,
                               second: int, microsecond: int)

  /** `utils.parsedate` on a string; None when the date parser rejects it. */
  type DateParser = string -> Option<DateTime>

  datatype ClassName = Publish2Object | Publish2Tag | Publish2Link | Publish2Feed

  /** `self.__class__.__name__`. */
  function ClassNameText(c: ClassName): string {
    match c
    case Publish2Object => "Publish2Object"
    case Publish2Tag => "Publish2Tag"
    case Publish2Link => "Publish2Link"
    case Publish2Feed => "Publish2Feed"
  }

  /** A Python dict decoded from a JSON object, shared by every object that
      uses it as its `__dict__`. */
  class PyDict {
    var entries: map<string, Value>

    constructor (entries: map<string, Value>)
      ensures this.entries == entries
    {
      this.entries := entries;
    }
  }

  /** The Python values a decoded feed holds, before and after the
      constructors rewrite it. */
  datatype Value =
    | Null
    | Bool(b: bool)
    | Int(i: int)
    | Str(s: string)
    | List(elems: seq<Value>)
    | Dict(dict: PyDict)
    | Date(date: DateTime)
      /** An instance of one of the four classes; its attributes are `attrs`. */
    | Instance(cls: ClassName, attrs: PyDict)

  const NotADict := TypeError("__dict__ must be set to a dictionary")
  const NotIterable := TypeError("object is not iterable")

  // ---------------------------------------------------------------------
  // Generic Python steps the constructors are made of

  /** The elements `for x in v` visits: a list's elements, a string's
      one-character strings. Every other value raises `TypeError`. */
  function Iterate(v: Value): (r: Result<seq<Value>>)
    ensures v.List? ==> r == Ok(v.elems)
    ensures v.Str? ==> r.Ok? && |r.value| == |v.s| &&
                       forall i :: 0 <= i < |v.s| ==> r.value[i] == Str([v.s[i]])
    ensures !v.List? && !v.Str? ==> r == Err(NotIterable)
  {
    match v
    case List(elems) => Ok(elems)
    case Str(s) => Ok(seq(|s|, i requires 0 <= i < |s| => Str([s[i]])))
    case _ => Err(NotIterable)
  }

  /** `Publish2Object.__init__(self, d)` for an object of class `cls`: only a
      dict can become an object's `__dict__`. Nothing is copied or changed. */
  function NewInstance(cls: ClassName, raw: Value): (r: Result<Value>)
    ensures r.Ok? <==> raw.Dict?
    ensures r.Ok? ==> r.value == Instance(cls, raw.dict)
    ensures r.Err? ==> r.error == NotADict
  {
    match raw
    case Dict(d) => Ok(Instance(cls, d))
    case _ => Err(NotADict)
  }

  /** `[Publish2Tag(t) for t in es]`: one Tag per element, in order, each
      sharing the element's dict. */
  function TagsFrom(es: seq<Value>): (r: Result<seq<Value>>)
    ensures r.Ok? <==> forall i :: 0 <= i < |es| ==> es[i].Dict?
    ensures r.Ok? ==> |r.value| == |es| &&
                      forall i :: 0 <= i < |es| ==> r.value[i] == Instance(Publish2Tag, es[i].dict)
    ensures r.Err? ==> r.error == NotADict
  {
    if es == [] then Ok([])
    else match NewInstance(Publish2Tag, es[0])
      case Err(e) => Err(e)
      case Ok(t) =>
        match TagsFrom(es[1..])
        case Err(e) => Err(e)
        case Ok(ts) => Ok([t] + ts)
  }

  /** The tag objects built from a link's raw `tags` value. */
  function TagObjects(tags: Value): (r: Result<seq<Value>>)
    ensures tags.List? ==> r == TagsFrom(tags.elems)
    ensures tags.Str? ==> (r.Ok? <==> tags.s == "") && (r.Ok? ==> r.value == [])
    ensures !tags.List? && !tags.Str? ==> r == Err(NotIterable)
  {
    match Iterate(tags)
    case Err(e) => Err(e)
    case Ok(es) => TagsFrom(es)
  }

  /** `utils.parsedate(v)`: a string the parser accepts, or an error. */
  function ParseDate(v: Value, parse: DateParser): (r: Result<DateTime>)
    ensures r.Ok? <==> v.Str? && parse(v.s).Some?
    ensures r.Ok? ==> r.value == parse(v.s).value
  {
    match v
    case Str(s) => (match parse(s)
                    case Some(dt) => Ok(dt)
                    case None => Err(ValueError("unknown string format")))
    case _ => Err(TypeError("parsedate expects a string"))
  }

  // ---------------------------------------------------------------------
  // Publish2Link

  /** The keys a Link's constructor writes. */
  const RewrittenKeys: set<string> := {"publication_date", "created_date", "tags"}

  /** The dict's contents after the constructor has run (or stopped at an
      exception), and the exception it raised, if any. */
  datatype Outcome = Outcome(entries: map<string, Value>, raised: Option<Exception>)

  /** The raw record holds `key` and the date parser accepts it. */
  predicate HasDate(e: map<string, Value>, key: string, parse: DateParser) {
    key in e && e[key].Str? && parse(e[key].s).Some?
  }

  function DateOf(e: map<string, Value>, key: string, parse: DateParser): DateTime
    requires HasDate(e, key, parse)
  {
    parse(e[key].s).value
  }

  /** The body of `Publish2Link.__init__` as a function of the raw
      record: both dates parsed in place, then `tags` turned into Tag objects
      or defaulted to `[]`. A step that raises leaves the writes of the
      earlier steps in the dict. */
  function LinkInit(e: map<string, Value>, parse: DateParser): (o: Outcome)
    ensures o.entries.Keys <= e.Keys + {"tags"}
  {
    if "publication_date" !in e then Outcome(e, Some(KeyError("publication_date")))
    else match ParseDate(e["publication_date"], parse)
      case Err(x) => Outcome(e, Some(x))
      case Ok(published) =>
        var e1 := e["publication_date" := Date(published)];
        if "created_date" !in e1 then Outcome(e1, Some(KeyError("created_date")))
        else match ParseDate(e1["created_date"], parse)
          case Err(x) => Outcome(e1, Some(x))
          case Ok(created) =>
            var e2 := e1["created_date" := Date(created)];
            if "tags" in e2 then
              match TagObjects(e2["tags"])
              case Err(x) => Outcome(e2, Some(x))
              case Ok(tags) => Outcome(e2["tags" := List(tags)], None)
            else Outcome(e2["tags" := List([])], None)
  }

  /** What `LinkInit` keeps: every field other than the three it rewrites
      passes through unchanged, and the only key it may add is `tags`. */
  lemma LinkInitKeeps(e: map<string, Value>, parse: DateParser)
    ensures var o := LinkInit(e, parse);
      && (forall k :: k in e && k !in RewrittenKeys ==> k in o.entries && o.entries[k] == e[k])
      && o.entries.Keys <= e.Keys + {"tags"}
  {
  }

  /** When `Publish2Link(e)` succeeds, and what the record then holds. */
  lemma LinkInitSucceeds(e: map<string, Value>, parse: DateParser)
    ensures var o := LinkInit(e, parse);
      && (o.raised.None? <==>
            HasDate(e, "publication_date", parse) && HasDate(e, "created_date", parse) &&
            ("tags" in e ==> TagObjects(e["tags"]).Ok?))
      && (o.raised.None? ==>
            && o.entries.Keys == e.Keys + {"tags"}
            && o.entries["publication_date"] == Date(DateOf(e, "publication_date", parse))
            && o.entries["created_date"] == Date(DateOf(e, "created_date", parse))
            && o.entries["tags"] == List(if "tags" in e then TagObjects(e["tags"]).value else []))
  {
  }

  /** The failing steps, in the order the constructor takes them, and the
      writes each leaves behind. */
  lemma LinkInitFails(e: map<string, Value>, parse: DateParser)
    ensures var o := LinkInit(e, parse);
      && ("publication_date" !in e ==> o == Outcome(e, Some(KeyError("publication_date"))))
      && ("publication_date" in e && !HasDate(e, "publication_date", parse) ==>
            o.entries == e && o.raised.Some?)
      && (HasDate(e, "publication_date", parse) && "created_date" !in e ==>
            o == Outcome(e["publication_date" := Date(DateOf(e, "publication_date", parse))],
                         Some(KeyError("created_date"))))
      && (HasDate(e, "publication_date", parse) && "created_date" in e && !HasDate(e, "created_date", parse) ==>
            o.entries == e["publication_date" := Date(DateOf(e, "publication_date", parse))] && o.raised.Some?)
      && (HasDate(e, "publication_date", parse) && HasDate(e, "created_date", parse) &&
          "tags" in e && TagObjects(e["tags"]).Err? ==>
            o == Outcome(e["publication_date" := Date(DateOf(e, "publication_date", parse))]
                          ["created_date" := Date(DateOf(e, "created_date", parse))],
                         Some(TagObjects(e["tags"]).error)))
  {
  }

  /** `Publish2Link(raw)`: on success the Link is an instance whose
      attributes are the raw dict itself, rewritten as `LinkInit` says. */
  method NewLink(raw: Value, parse: DateParser) returns (r: Result<Value>)
    modifies if raw.Dict? then {raw.dict} else {}
    ensures !raw.Dict? ==> r == Err(NotADict)
    ensures raw.Dict? ==>
      && raw.dict.entries == LinkInit(old(raw.dict.entries), parse).entries
      && (r.Ok? <==> LinkInit(old(raw.dict.entries), parse).raised.None?)
      && (r.Ok? ==> r.value == Instance(Publish2Link, raw.dict))
      && (r.Err? ==> LinkInit(old(raw.dict.entries), parse).raised == Some(r.error))
  {
    if !raw.Dict? {
      return Err(NotADict);
    }
    var d := raw.dict;
    if "publication_date" !in d.entries {
      return Err(KeyError("publication_date"));
    }
    var published := ParseDate(d.entries["publication_date"], parse);
    if published.Err? {
      return Err(published.error);
    }
    d.entries := d.entries["publication_date" := Date(published.value)];
    if "created_date" !in d.entries {
      return Err(KeyError("created_date"));
    }
    var created := ParseDate(d.entries["created_date"], parse);
    if created.Err? {
      return Err(created.error);
    }
    d.entries := d.entries["created_date" := Date(created.value)];
    if "tags" in d.entries {
      var tags := TagObjects(d.entries["tags"]);
      if tags.Err? {
        return Err(tags.error);
      }
      d.entries := d.entries["tags" := List(tags.value)];
    } else {
      d.entries := d.entries["tags" := List([])];
    }
    return Ok(Instance(Publish2Link, d));
  }

  /** A record without `tags` gets an empty tag list; one with a list of
      dicts gets one Tag per raw tag, in the same order. */
  lemma LinkTags(e: map<string, Value>, parse: DateParser)
    requires HasDate(e, "publication_date", parse) && HasDate(e, "created_date", parse)
    ensures "tags" !in e ==> LinkInit(e, parse).raised.None? && LinkInit(e, parse).entries["tags"] == List([])
    ensures "tags" in e && e["tags"].List? && (forall i :: 0 <= i < |e["tags"].elems| ==> e["tags"].elems[i].Dict?) ==>
      var tags := e["tags"].elems;
      && LinkInit(e, parse).raised.None?
      && LinkInit(e, parse).entries["tags"].List?
      && |LinkInit(e, parse).entries["tags"].elems| == |tags|
      && forall i :: 0 <= i < |tags| ==> LinkInit(e, parse).entries["tags"].elems[i] == Instance(Publish2Tag, tags[i].dict)
  {
    LinkInitSucceeds(e, parse);
  }

  // ---------------------------------------------------------------------
  // __str__ and __repr__

  /** The attribute `__str__` returns, if the class names one. */
  function StrAttribute(cls: ClassName): Option<string> {
    match cls
    case Publish2Object => None
    case Publish2Tag => Some("name")
    case Publish2Link => Some("title")
    case Publish2Feed => Some("title")
  }

  /** `obj.__str__()` for an instance of `cls` with attributes `attrs`: the
      base class gives `''`, a Tag its `name`, a Link or Feed its `title`;
      reading an attribute the dict lacks raises `AttributeError`. */
  function StrOf(cls: ClassName, attrs: map<string, Value>): (r: Result<Value>)
    ensures cls == Publish2Object ==> r == Ok(Str(""))
    ensures cls == Publish2Tag ==>
      r == if "name" in attrs then Ok(attrs["name"]) else Err(AttributeError("name"))
    ensures cls == Publish2Link || cls == Publish2Feed ==>
      r == if "title" in attrs then Ok(attrs["title"]) else Err(AttributeError("title"))
  {
    match StrAttribute(cls)
    case None => Ok(Str(""))
    case Some(name) => if name in attrs then Ok(attrs[name]) else Err(AttributeError(name))
  }

  /** `'%s' % v`: a string is its own text; the text of any other value is
      given by `show`. */
  function Format(v: Value, show: Value -> string): string {
    if v.Str? then v.s else show(v)
  }

  /** `obj.__repr__()`: `<ClassName: str>`, failing exactly when `__str__` does. */
  function Repr(cls: ClassName, attrs: map<string, Value>, show: Value -> string): (r: Result<string>)
    ensures r.Ok? <==> StrOf(cls, attrs).Ok?
    ensures r.Ok? ==> r.value == "<" + ClassNameText(cls) + ": " + Format(StrOf(cls, attrs).value, show) + ">"
    ensures r.Err? ==> r.error == StrOf(cls, attrs).error
  {
    match StrOf(cls, attrs)
    case Err(e) => Err(e)
    case Ok(v) => Ok("<" + ClassNameText(cls) + ": " + Format(v, show) + ">")
  }

  /** The repr of a Link built from a raw item shows the raw item's title. */
  lemma LinkReprShowsRawTitle(e: map<string, Value>, parse: DateParser, show: Value -> string)
    requires LinkInit(e, parse).raised.None?
    requires "title" in e && e["title"].Str?
    ensures Repr(Publish2Link, LinkInit(e, parse).entries, show) == Ok("<Publish2Link: " + e["title"].s + ">")
  {
    LinkInitKeeps(e, parse);
    var t := e["title"].s;
    assert "<" + "Publish2Link" + ": " == "<Publish2Link: ";
    assert "<" + "Publish2Link" + ": " + t + ">" == "<Publish2Link: " + t + ">";
  }

  /** The base class has an empty `__str__`, whatever its attributes. */
  lemma BaseReprIsEmpty(attrs: map<string, Value>, show: Value -> string)
    ensures Repr(Publish2Object, attrs, show) == Ok("<Publish2Object: >")
  {
    assert "<" + "Publish2Object" + ": " + "" + ">" == "<Publish2Object: >";
  }

  // ---------------------------------------------------------------------
  // Publish2Feed

  /** `getattr(self, 'items', [])`. */
  function RawItems(e: map<string, Value>): Value {
    if "items" in e then e["items"] else List([])
  }

  /** The raw items a feed dict's constructor iterates over ([] when the
      iteration itself fails). */
  function FeedElems(feed: PyDict): seq<Value>
    reads feed
  {
    var it := Iterate(RawItems(feed.entries));
    if it.Ok? then it.value else []
  }

  function ItemDicts(es: seq<Value>): set<PyDict> {
    set i | 0 <= i < |es| && es[i].Dict? :: es[i].dict
  }

  /** The dicts a Feed's constructor may rewrite: its own and its items'. */
  function FeedFootprint(raw: Value): set<PyDict>
    reads if raw.Dict? then {raw.dict} else {}
  {
    if raw.Dict? then {raw.dict} + ItemDicts(FeedElems(raw.dict)) else {}
  }

  /** No dict occurs twice among the raw items. */
  predicate Distinct(es: seq<Value>) {
    forall i, j :: 0 <= i < j < |es| && es[i].Dict? && es[j].Dict? ==> es[i].dict != es[j].dict
  }

  /** What `json.load` guarantees of the decoded feed: its items are
      distinct dicts, none of them the feed's own dict. */
  predicate DistinctItems(feed: PyDict)
    reads feed
  {
    feed !in ItemDicts(FeedElems(feed)) && Distinct(FeedElems(feed))
  }

  /** A Link can be built from `v` without raising. */
  predicate LinkBuilds(v: Value, parse: DateParser)
    reads if v.Dict? then {v.dict} else {}
  {
    v.Dict? && LinkInit(v.dict.entries, parse).raised.None?
  }

  /** The exception `Publish2Link(v)` raises, when it raises. */
  function LinkError(v: Value, parse: DateParser): Exception
    reads if v.Dict? then {v.dict} else {}
    requires !LinkBuilds(v, parse)
  {
    if v.Dict? then LinkInit(v.dict.entries, parse).raised.value else NotADict
  }

  lemma ItemDictsOfTail(es: seq<Value>)
    requires es != []
    ensures ItemDicts(es[1..]) <= ItemDicts(es)
  {
    forall o | o in ItemDicts(es[1..]) ensures o in ItemDicts(es) {
      var i :| 0 <= i < |es[1..]| && es[1..][i].Dict? && es[1..][i].dict == o;
      assert es[i + 1].dict == o;
    }
  }

  /** The index of the first raw item whose Link raises, or `|es|` when none does. */
  function FirstFailure(es: seq<Value>, parse: DateParser): (k: nat)
    reads ItemDicts(es)
    ensures k <= |es|
    ensures forall j :: 0 <= j < k ==> LinkBuilds(es[j], parse)
    ensures k < |es| ==> !LinkBuilds(es[k], parse)
    decreases |es|
  {
    if es == [] then 0
    else if !LinkBuilds(es[0], parse) then 0
    else
      ItemDictsOfTail(es);
      1 + FirstFailure(es[1..], parse)
  }

  /** `links` are the Link objects built from `es`, one per item, in order. */
  predicate AreLinksOf(links: seq<Value>, es: seq<Value>) {
    && |links| == |es|
    && forall i :: 0 <= i < |es| ==> es[i].Dict? && links[i] == Instance(Publish2Link, es[i].dict)
  }

  /** The dicts of `es` after building Links from them up to and including
      the one at index `k`: each of those rewritten as `LinkInit` says, the
      later ones untouched. */
  twostate predicate RewrittenUpTo(es: seq<Value>, k: int, parse: DateParser)
    reads ItemDicts(es)
  {
    forall i :: 0 <= i < |es| && es[i].Dict? ==>
      es[i].dict.entries == if i <= k then LinkInit(old(es[i].dict.entries), parse).entries
                            else old(es[i].dict.entries)
  }

  /** The effect of `[Publish2Link(i) for i in es]` with result `r`: the
      Links are built in order up to the first that raises, which is what
      the comprehension raises. */
  twostate predicate LinksBuilt(es: seq<Value>, parse: DateParser, new r: Result<seq<Value>>)
    reads ItemDicts(es)
  {
    var k := old(FirstFailure(es, parse));
    && (r.Ok? <==> k == |es|)
    && (r.Ok? ==> AreLinksOf(r.value, es))
    && (r.Err? ==> k < |es| && r.error == old(LinkError(es[k], parse)))
    && RewrittenUpTo(es, k, parse)
  }

  /** `[Publish2Link(i) for i in items]` in `Publish2Feed.__init__`, over the raw items `es`. */
  method NewLinks(es: seq<Value>, parse: DateParser) returns (r: Result<seq<Value>>)
    requires Distinct(es)
    modifies ItemDicts(es)
    ensures LinksBuilt(es, parse, r)
  {
    ghost var k := FirstFailure(es, parse);
    var links: seq<Value> := [];
    var i := 0;
    while i < |es|
      invariant 0 <= i <= k
      invariant AreLinksOf(links, es[..i])
      invariant RewrittenUpTo(es, i - 1, parse)
    {
      label before:
      var link := NewLink(es[i], parse);
      forall j | 0 <= j < |es| && es[j].Dict? && j != i
        ensures es[j].dict.entries == old@before(es[j].dict.entries)
      {
        assert es[i].Dict? ==> es[j].dict != es[i].dict;
      }
      if link.Err? {
        assert !old(LinkBuilds(es[i], parse));
        return Err(link.error);
      }
      assert es[..i + 1] == es[..i] + [es[i]];
      links := links + [link.value];
      i := i + 1;
    }
    assert es[..i] == es;
    return Ok(links);
  }

  /** The effect of `Publish2Feed(raw)` with result `r`: a non-dict is
      refused; a failed iteration of `items` changes nothing; otherwise the
      Links are built as `LinksBuilt` says, and only when all succeed is the
      feed's `items` replaced by the list of Links, every other feed field
      kept. */
  twostate predicate FeedConstructed(raw: Value, parse: DateParser, new r: Result<Value>)
    reads *
  {
    if !raw.Dict? then r == Err(NotADict)
    else
      var items := Iterate(RawItems(old(raw.dict.entries)));
      if items.Err? then r == Err(items.error) && raw.dict.entries == old(raw.dict.entries)
      else
        var es := items.value;
        var k := old(FirstFailure(es, parse));
        && RewrittenUpTo(es, k, parse)
        && (k < |es| ==> r == Err(old(LinkError(es[k], parse))) && raw.dict.entries == old(raw.dict.entries))
        && (k == |es| ==>
              && r == Ok(Instance(Publish2Feed, raw.dict))
              && "items" in raw.dict.entries
              && raw.dict.entries == old(raw.dict.entries)["items" := raw.dict.entries["items"]]
              && raw.dict.entries["items"].List?
              && AreLinksOf(raw.dict.entries["items"].elems, es))
  }

  /** `Publish2Feed(raw)`. */
  method NewFeed(raw: Value, parse: DateParser) returns (r: Result<Value>)
    requires raw.Dict? ==> DistinctItems(raw.dict)
    modifies FeedFootprint(raw)
    ensures FeedConstructed(raw, parse, r)
  {
    if !raw.Dict? {
      return Err(NotADict);
    }
    var d := raw.dict;
    var items := Iterate(RawItems(d.entries));
    if items.Err? {
      return Err(items.error);
    }
    var es := items.value;
    var links := NewLinks(es, parse);
    if links.Err? {
      return Err(links.error);
    }
    d.entries := d.entries["items" := List(links.value)];
    return Ok(Instance(Publish2Feed, d));
  }

  /** A successful feed has one Link per raw item, and Link i shows raw
      item i's title: the count and titles-by-index a client compares. */
  twostate lemma FeedKeepsTitles(raw: Value, parse: DateParser, new r: Result<Value>)
    requires FeedConstructed(raw, parse, r) && r.Ok?
    ensures raw.Dict? && Iterate(RawItems(old(raw.dict.entries))).Ok?
    ensures var es := Iterate(RawItems(old(raw.dict.entries))).value;
      && raw.dict.entries["items"].List?
      && |raw.dict.entries["items"].elems| == |es|
      && forall i :: 0 <= i < |es| && "title" in old(es[i].dict.entries) ==>
           var link := raw.dict.entries["items"].elems[i];
           link.Instance? && link.cls == Publish2Link && "title" in link.attrs.entries &&
           link.attrs.entries["title"] == old(es[i].dict.entries["title"])
  {
    var es := Iterate(RawItems(old(raw.dict.entries))).value;
    forall i | 0 <= i < |es| && "title" in old(es[i].dict.entries)
      ensures var link := raw.dict.entries["items"].elems[i];
        link.Instance? && link.cls == Publish2Link && "title" in link.attrs.entries &&
        link.attrs.entries["title"] == old(es[i].dict.entries["title"])
    {
      LinkInitKeeps(old(es[i].dict.entries), parse);
    }
  }

  /** A raw feed without `items` becomes a Feed whose `items` is `[]`, every
      other field kept. */
  twostate lemma FeedWithoutItems(raw: Value, parse: DateParser, new r: Result<Value>)
    requires FeedConstructed(raw, parse, r)
    requires raw.Dict? && "items" !in old(raw.dict.entries)
    ensures r == Ok(Instance(Publish2Feed, raw.dict))
    ensures raw.dict.entries == old(raw.dict.entries)["items" := List([])]
  {
  }

  // ---------------------------------------------------------------------
  // search

  /** The five filters `search` always sends. */
  const FilterKeys: set<string> := {"q", "newsgroup", "tag", "source", "number_of_items"}

  /** The query `search(q, newsgroup, tag, source, count, **extras)` sends:
      the five named filters, overriding same-named extras, and the other
      extras unchanged. */
  predicate IsSearchRequest(req: Request, q: string, newsgroup: string, tag: string, source: string,
                            count: int, extras: map<string, Param>)
  {
    && req.prefix == BaseUrl
    && req.query.Keys == extras.Keys + FilterKeys
    && req.query["q"] == PText(q)
    && req.query["newsgroup"] == PText(newsgroup)
    && req.query["tag"] == PText(tag)
    && req.query["source"] == PText(source)
    && req.query["number_of_items"] == PInt(count)
    && forall k :: k in extras && k !in FilterKeys ==> req.query[k] == extras[k]
  }

  /** The body of `search` up to the fetch: the keyword arguments are updated in place
      with the five filters and encoded after the base URL. */
  method SearchRequest(q: string := "", newsgroup: string := "", tag: string := "", source: string := "",
                       count: int := 10, extras: map<string, Param> := map[])
    returns (req: Request)
    ensures IsSearchRequest(req, q, newsgroup, tag, source, count, extras)
  {
    var kwargs := extras;
    kwargs := kwargs + map["q" := PText(q), "newsgroup" := PText(newsgroup), "tag" := PText(tag),
                           "source" := PText(source), "number_of_items" := PInt(count)];
    req := Request(BaseUrl, kwargs);
  }

  /** `search()` with no arguments: empty filters and ten items. */
  method EmptySearch() returns (req: Request)
    ensures req.prefix == BaseUrl
    ensures req.query == map["q" := PText(""), "newsgroup" := PText(""), "tag" := PText(""),
                             "source" := PText(""), "number_of_items" := PInt(10)]
  {
    req := SearchRequest();
  }

  /** `search(...)`: the request it sends, and the Feed built from the
      decoded `response` the service answers with. */
  method Search(q: string, newsgroup: string, tag: string, source: string, count: int,
                extras: map<string, Param>, response: Value, parse: DateParser)
    returns (req: Request, r: Result<Value>)
    requires response.Dict? ==> DistinctItems(response.dict)
    modifies FeedFootprint(response)
    ensures IsSearchRequest(req, q, newsgroup, tag, source, count, extras)
    ensures FeedConstructed(response, parse, r)
  {
    req := SearchRequest(q, newsgroup, tag, source, count, extras);
    r := NewFeed(response, parse);
  }
}

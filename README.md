# django-newsutils core, modelled in Dafny

django-newsutils gives Django sites three small news-service clients. This
project models the logic each client adds around its HTTP call.

- **Publish2** (`newsutils/utils/publish2.py`). `search` builds the query
  for the Publish2 links feed. The decoded JSON is then turned into a
  `Publish2Feed` of `Publish2Link`s, each with `Publish2Tag`s. Every object
  uses the decoded dict itself as its `__dict__`, so construction rewrites
  the decoded JSON in place. The model keeps that aliasing. A decoded JSON
  object is a `PyDict` on the heap. An instance is its class plus the dict
  it lives in. The constructors are methods that modify those dicts, and
  they leave partial writes behind when a later step raises.
- **bit.ly** (`newsutils/utils/bitly.py`). `_apicall` signs every call with
  the credentials, the API version and the JSON format. `shorten`
  interprets the response.
- **google_news template tag** (`newsutils/templatetags/news_utils.py`).
  `do_google_news` parses the tag: a single whitespace split, then the
  regular expression `(.*?) as (\w+)`. `GoogleNewsNode.render` queries the
  news-search service. It then either binds the results in the rendering
  context, returning `''`, or returns the results.

For bit.ly and google_news the network is a parameter `fetch`: a function
from the request sent to the JSON document received. For Publish2 the
decoded answer is itself an input of `Search`, next to the request it
builds. `utils.parsedate` is a parameter `parse`: a
function from a string to an optional datetime. A request is a URL prefix
plus a map of parameter values. `urlencode` is not modelled.

Files:
- `python.dfy`: `Option`, `Result`, the exceptions, the JSON tree, and
  `d[key]` / `d.get`.
- `http.dfy`: requests and parameter values.
- `publish2.dfy`, `bitly.dfy`, `news_utils.dfy`: one module per source
  file.

## Model

| member | source | states |
|---|---|---|
| Publish2.Iterate | newsutils/utils/publish2.py:73 | `for x in v`: a list gives its elements, a string gives its one-character strings, anything else raises TypeError |
| Publish2.NewInstance | newsutils/utils/publish2.py:47-48 | an object can be made from a dict only; the instance's attributes are that very dict, otherwise TypeError |
| Publish2.TagsFrom | newsutils/utils/publish2.py:73 | the comprehension succeeds iff every raw tag is a dict; then one Tag per raw tag, in order, Tag i sharing raw tag i's dict |
| Publish2.TagObjects | newsutils/utils/publish2.py:71-73 | a list of raw tags gives `TagsFrom`; a string iterates to one-character strings, so only `''` succeeds (with no tags); any other value raises TypeError |
| Publish2.ParseDate | newsutils/utils/publish2.py:69-70 | parsing succeeds iff the value is a string the date parser accepts, and the result is that parse |
| Publish2.LinkInit | newsutils/utils/publish2.py:67-75 | `Publish2Link.__init__` on the raw record: dates parsed in order, then `tags`; its own contract says the only key it may add is `tags`, and the rest of its contract is stated by LinkInitKeeps, LinkInitSucceeds and LinkInitFails |
| Publish2.LinkInitKeeps | newsutils/utils/publish2.py:67-75 | every field other than `publication_date`, `created_date` and `tags` (for example `title`) is unchanged on the aliased dict; the only key construction can add is `tags` |
| Publish2.LinkInitSucceeds | newsutils/utils/publish2.py:67-75 | a Link builds iff both dates are present and parse and any `tags` converts; it then holds the two parsed dates and the Tag list, which is `[]` when the record had no `tags` |
| Publish2.LinkInitFails | newsutils/utils/publish2.py:69-73 | KeyError on a missing `publication_date` (dict untouched) or `created_date` (publication date already rewritten); a rejected date or bad `tags` raises and leaves the earlier steps' writes in the dict |
| Publish2.NewLink | newsutils/utils/publish2.py:67-75 | `Publish2Link(raw)` rewrites the raw dict exactly as `LinkInit` says, succeeds iff it raises nothing, and returns an instance over that same dict |
| Publish2.LinkTags | newsutils/utils/publish2.py:71-75 | with both dates valid: no `tags` gives `[]`; a list of dicts gives one Tag per raw tag, same length and order |
| Publish2.StrOf | newsutils/utils/publish2.py:53-88 | `__str__`: `''` for the base class, `name` for a Tag, `title` for a Link or Feed; AttributeError when that attribute is missing |
| Publish2.Repr | newsutils/utils/publish2.py:50-51 | `__repr__` is `<` + class name + `: ` + `str(obj)` + `>`, and fails exactly when `__str__` does |
| Publish2.LinkReprShowsRawTitle | newsutils/utils/publish2.py:77-78 | the repr of a built Link is `<Publish2Link: ` + the raw record's title + `>` |
| Publish2.BaseReprIsEmpty | newsutils/utils/publish2.py:50-54 | a base-class object's repr is `<Publish2Object: >`, whatever its attributes |
| Publish2.FirstFailure | newsutils/utils/publish2.py:85 | the index of the first raw item whose Link raises: every earlier item builds, and that one does not |
| Publish2.NewLinks | newsutils/utils/publish2.py:85 | Links are built in order up to the first that raises. Each processed dict is rewritten as `LinkInit` says and later dicts are untouched. On success there is one Link per item, Link i over item i's dict; otherwise the first item's exception |
| Publish2.NewFeed | newsutils/utils/publish2.py:83-85 | `Publish2Feed(raw)`: a non-dict or non-iterable `items` is refused with nothing changed; a failing Link leaves the feed dict unchanged; on success `items` (default `[]`) is replaced by the Link list and every other feed field is kept |
| Publish2.FeedKeepsTitles | newsutils/utils/publish2.py:85 | a built feed has as many Links as raw items, and Link i shows raw item i's title |
| Publish2.FeedWithoutItems | newsutils/utils/publish2.py:85 | a raw feed without `items` builds, with `items` set to `[]` and nothing else changed |
| Publish2.SearchRequest | newsutils/utils/publish2.py:91-102 | the query goes to the links feed URL with `q`, `newsgroup`, `tag`, `source` and `number_of_items` = `count`, overriding same-named extras; every other extra passes through unchanged |
| Publish2.EmptySearch | newsutils/utils/publish2.py:91 | `search()` sends exactly `q`, `newsgroup`, `tag`, `source` = `''` and `number_of_items` = 10 |
| Publish2.Search | newsutils/utils/publish2.py:91-104 | the request of `SearchRequest`, and the Feed built from the decoded answer as `NewFeed` says |
| Bitly.Bitly.constructor | newsutils/utils/bitly.py:21-23 | stores the user name and the API key; the `method` argument is ignored |
| Bitly.Bitly.Repr | newsutils/utils/bitly.py:26-27 | `<Bitly: ` + user name + `>`; the user name can be read back from it |
| Bitly.Bitly.ApiCall | newsutils/utils/bitly.py:30-36 | the request goes to `BASE_URL + method + '?'` with `login`, `apiKey`, `version` = `2.0.1` and `format` = `json`, overriding the caller's; every other parameter is kept; the answer is what the service returns |
| Bitly.Bitly.Shorten | newsutils/utils/bitly.py:39-43 | one call to `shorten` whose parameters are exactly `longUrl` plus the four signing parameters. Its result is the response read as the code is written (`ShortenResponseAsWritten`), so an `ERROR` status raises NameError; a success agrees with the intended `ShortenResponse` |
| Bitly.ResultsLookup | newsutils/utils/bitly.py:43 | `response['results'][long_url]['shortUrl']`: succeeds iff every level is a dict holding the key, and then gives that value |
| Bitly.ShortenResponseAsWritten | newsutils/utils/bitly.py:41-43 | as written: a non-dict response fails on `.get`; an `ERROR` status raises NameError for `results`; a missing or other status means success and the results lookup |
| Bitly.ShortenResponse | newsutils/utils/bitly.py:41-43 | as intended: an `ERROR` status raises BitlyError with the response's `errorMessage`; otherwise as written; whenever it succeeds it agrees with the code as written |
| Bitly.ShortenReadsSuccess | newsutils/utils/bitly.py:43 | a success document for a long URL reads back exactly its short URL |
| Bitly.ShortenOtherUrlMisses | newsutils/utils/bitly.py:43 | the lookup is keyed by exactly the input: any other URL gives KeyError for that URL |
| Bitly.ErrorPathRaisesNameError | newsutils/utils/bitly.py:41-42 | for an error document the intended code raises BitlyError(message), the code as written raises NameError |
| NewsUtils.SplitOnce | newsutils/templatetags/news_utils.py:58 | `split(None, 1)`: at most two non-empty pieces, none iff the text is all whitespace, the first piece holds no whitespace, the second starts with a non-space |
| NewsUtils.SplitOnceRecomposes | newsutils/templatetags/news_utils.py:58 | the pieces put back together with whitespace between them and around them give the original text |
| NewsUtils.SearchAs | newsutils/templatetags/news_utils.py:63 | `re.search(r'(.*?) as (\w+)', args)`: a found match has its lazy group before a ` as ` followed by a word character, and its word group inside the text; SearchAsIsReSearch proves it is exactly the match the pattern prescribes |
| NewsUtils.SearchAsIsReSearch | newsutils/templatetags/news_utils.py:63 | the computed search finds nothing iff the pattern matches nowhere. Otherwise it gives the leftmost match, the shortest lazy group and the longest word after ` as `; `.` does not match a newline |
| NewsUtils.NewGoogleNewsNode | newsutils/templatetags/news_utils.py:16-18 | `GoogleNewsNode(query, var_name=None)`: the query text is kept as a `template.Variable` built from it, not resolved, and the variable name is stored as given, None by default |
| NewsUtils.NodeFromArgs | newsutils/templatetags/news_utils.py:63-68 | with no match the whole argument text is the query and there is no variable name; otherwise the groups of the prescribed match are the query and the name |
| NewsUtils.DoGoogleNews | newsutils/templatetags/news_utils.py:57-68 | a node iff the contents split into a tag name and arguments. A lone tag name raises TemplateSyntaxError `<name> takes at least one argument`; empty contents fail with IndexError in `split_contents()[0]` |
| NewsUtils.NodeFromArgsSplitsAtFirstAs | newsutils/templatetags/news_utils.py:63-66 | on one-line arguments the query is the text before the first ` as ` followed by a word, and the name is the full word run after it |
| NewsUtils.SplitOnceTagAndArgs | newsutils/templatetags/news_utils.py:58 | `tag + ' ' + args` splits into exactly `[tag, args]` |
| NewsUtils.TagQueryAsName | newsutils/templatetags/news_utils.py:57-66 | `tag q as v` with a one-line `q` holding no ` as ` and a word `v` gives the node with query `q` and name `v` |
| NewsUtils.NodeFromQueryAsName | newsutils/templatetags/news_utils.py:63-66 | `q as v` gives query `q` and variable name `v` under the same conditions |
| NewsUtils.DocumentedExample | newsutils/templatetags/news_utils.py:50-54 | `google_news "Barack Obama" as obama_news` gives the query `"Barack Obama"`, quotes kept, and binds `obama_news` |
| NewsUtils.LookupIn | newsutils/templatetags/news_utils.py:35 | a context lookup finds nothing iff no scope holds the key; otherwise it gives the innermost scope's value |
| NewsUtils.BindInnermost | newsutils/templatetags/news_utils.py:35 | after binding a key in the innermost scope, that key looks up to the new value and every other key looks up as before |
| NewsUtils.Context.Set | newsutils/templatetags/news_utils.py:35 | `context[key] = value` writes the innermost scope; the key then reads the value and no other key's lookup changes |
| NewsUtils.ResponseResults | newsutils/templatetags/news_utils.py:32 | `json['responseData']['results']`: succeeds iff both keys are present, gives that value, and a missing `responseData` is a KeyError |
| NewsUtils.ResultsAreTheRecords | newsutils/templatetags/news_utils.py:32 | a news-search answer's records come back as sent, in order |
| NewsUtils.Render | newsutils/templatetags/news_utils.py:20-38 | the request always carries `v=1.0`, `rsz=large` and `q` = the node's Variable, plus `key` only when configured. A failed unwrap raises with the context untouched. With a variable name the results are bound, no other key changes, and `''` is returned; otherwise the results are returned and the context is untouched |

## Left out

- Network I/O (`urllib2.urlopen`, `json.load`, `utils.getjson`). The decoded answer is a parameter.
- `urllib.urlencode`. A request is a prefix plus a parameter map, so encoding and parameter order are not modelled.
- `utils.parsedate`'s date grammar and timezone handling. It is the `parse` parameter.
- The `parsedate` and `datetime_from_tuple` template filters. They are thin wrappers over dateutil, `time.mktime` and Django's `DateFormat`.
- `do_publish2`. It is not registered, never returns a node, and calls `.next()` on a string, so it has no behaviour to state.
- Django template registration, `template.Variable`'s parsing and `resolve()`. `render` discards the value `resolve()` returns. A failing `resolve()` is not modelled.
- `split_contents()` quote handling for the error message. For a token with no argument, its first element is taken to be the first whitespace-separated word.
- Publish2.Iterate: iterating a dict, which gives its keys, is modelled as a TypeError. For `tags` or `items` holding a non-empty dict, Python fails too, one step later, when it builds an object from a key string. A `{}` would give an empty list in Python.
- Publish2.NewFeed: requires the feed's items to be distinct dicts, none of them the feed's own dict, as `json.load` always produces. Aliased items are not modelled.
- Publish2.SearchRequest: keys `q`, `newsgroup`, `tag`, `source` and `count` cannot reach `**kwargs` in Python, because they bind to the named parameters. The contract holds for any extras map, so only the `number_of_items` collision is one Python can produce.
- Publish2.Repr: the text of a non-string attribute is the `show` parameter, because Python's `str()` of arbitrary values is not modelled.
- JSON floating-point numbers and the `Context`'s non-JSON values.
- NewsUtils.IsSpace: only ASCII whitespace is modelled. Python's `str.split()` also splits on separators such as `\x1c`-`\x1f` and Unicode spaces.
- NewsUtils.IsWordChar: `\w` is the ASCII class `[a-zA-Z0-9_]`, which is what Python 2's `re` uses without the UNICODE flag, for byte and unicode strings alike.

## Findings

| source | as written | input that shows it | evidently intended | confidence | as-written member | corrected member |
|---|---|---|---|---|---|---|
| newsutils/utils/bitly.py:41-42 | on an `ERROR` status, `raise BitlyError(results['errorMessage'])` reads the never-bound name `results`, so NameError is raised and the service's message is lost | a response `{"statusCode": "ERROR", "errorMessage": "bad url"}` | `raise BitlyError(response['errorMessage'])` | not executed | Bitly.ShortenResponseAsWritten (shown by Bitly.ErrorPathRaisesNameError) | Bitly.ShortenResponse |

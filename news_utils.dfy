/** The `google_news` template tag: the parser that turns the tag's text into
    a node (a whitespace split, then the regular expression
    `(.*?) as (\w+)`), and the node's rendering, which queries the news-search
    service and either binds the results in the rendering context or returns
    them. */
module NewsUtils {
  import opened Python
  import opened Http

  const GoogleNewsUrl := "http://ajax.googleapis.com/ajax/services/search/news?"

  type Fetch = Request -> Json

  // ---------------------------------------------------------------------
  // `str.split(None, 1)`

  /** The characters Python's `str.split()` treats as whitespace. */
  predicate IsSpace(c: char) {
    c == ' ' || c == '\t' || c == '\n' || c == '\r' || c == '\U{0B}' || c == '\U{0C}'
  }

  predicate AllSpace(s: string) {
    forall k :: 0 <= k < |s| ==> IsSpace(s[k])
  }

  predicate NoSpace(s: string) {
    forall k :: 0 <= k < |s| ==> !IsSpace(s[k])
  }

  function SkipSpace(s: string, i: nat): (k: nat)
    requires i <= |s|
    ensures i <= k <= |s|
    ensures AllSpace(s[i..k])
    ensures k < |s| ==> !IsSpace(s[k])
    decreases |s| - i
  {
    if i == |s| || !IsSpace(s[i]) then i else SkipSpace(s, i + 1)
  }

  function SkipWord(s: string, i: nat): (k: nat)
    requires i <= |s|
    ensures i <= k <= |s|
    ensures NoSpace(s[i..k])
    ensures k < |s| ==> IsSpace(s[k])
    decreases |s| - i
  {
    if i == |s| || IsSpace(s[i]) then i else SkipWord(s, i + 1)
  }

  /** `s.split(None, 1)`: leading whitespace is dropped, the first word is
      cut at the next whitespace run, and the rest (after that run) is the
      second piece when it is not empty. */
  function SplitOnce(s: string): (r: seq<string>)
    ensures |r| <= 2
    ensures r == [] <==> AllSpace(s)
    ensures forall p | p in r :: p != []
    ensures |r| >= 1 ==> NoSpace(r[0])
    ensures |r| == 2 ==> r[1] != [] && !IsSpace(r[1][0])
  {
    var a := SkipSpace(s, 0);
    if a == |s| then
      assert s == s[0..a];
      []
    else
      var b := SkipWord(s, a);
      var c := SkipSpace(s, b);
      if c == |s| then [s[a..b]] else [s[a..b], s[c..]]
  }

  /** The pieces of `s.split(None, 1)` put back together with the whitespace
      that separated them give `s` again. */
  lemma SplitOnceRecomposes(s: string)
    ensures |SplitOnce(s)| == 1 ==>
      exists w1, w2 :: AllSpace(w1) && AllSpace(w2) && s == w1 + SplitOnce(s)[0] + w2
    ensures |SplitOnce(s)| == 2 ==>
      exists w1, w2 :: AllSpace(w1) && AllSpace(w2) && w2 != [] &&
        s == w1 + SplitOnce(s)[0] + w2 + SplitOnce(s)[1]
  {
    var a := SkipSpace(s, 0);
    if a < |s| {
      var b := SkipWord(s, a);
      var c := SkipSpace(s, b);
      if c == |s| {
        assert s == s[..a] + s[a..b] + s[b..c];
      } else {
        assert b < c by { assert IsSpace(s[b]); }
        assert s == s[..a] + s[a..b] + s[b..c] + s[c..];
      }
    }
  }

  // ---------------------------------------------------------------------
  // `re.search(r'(.*?) as (\w+)', args)`

  /** `\w` without the UNICODE flag. */
  predicate IsWordChar(c: char) {
    ('a' <= c <= 'z') || ('A' <= c <= 'Z') || ('0' <= c <= '9') || c == '_'
  }

  /** The literal ` as ` starts at `j` and a word character follows it. */
  predicate AsAt(s: string, j: int) {
    0 <= j && j + 4 < |s| && s[j..j + 4] == " as " && IsWordChar(s[j + 4])
  }

  /** A match of the pattern can start at `i` with its lazy group `(.*?)`
      spanning `s[i..j]`: `.` matches every character but a newline. */
  predicate MatchesAt(s: string, i: int, j: int) {
    0 <= i <= j && AsAt(s, j) && forall k :: i <= k < j ==> s[k] != '\n'
  }

  /** A match found by `re.search`: groups `s[start..asAt]` and `s[asAt + 4..end]`. */
  datatype Match = Match(start: nat, asAt: nat, end: nat)

  /** What `re.search` returns for the pattern, defined independently of how
      it is computed: the leftmost starting position that admits a match, the
      shortest lazy group from there, and the longest run of word
      characters after ` as `. */
  ghost predicate IsSearchResult(s: string, m: Match) {
    && MatchesAt(s, m.start, m.asAt)
    && (forall i, j :: 0 <= i < m.start ==> !MatchesAt(s, i, j))
    && (forall j :: j < m.asAt ==> !MatchesAt(s, m.start, j))
    && m.asAt + 4 < m.end <= |s|
    && (forall k :: m.asAt + 4 <= k < m.end ==> IsWordChar(s[k]))
    && (m.end < |s| ==> !IsWordChar(s[m.end]))
  }

  function FirstAs(s: string, from: nat): (j: nat)
    requires from <= |s|
    ensures from <= j <= |s|
    ensures j < |s| ==> AsAt(s, j)
    ensures forall k :: from <= k < j ==> !AsAt(s, k)
    decreases |s| - from
  {
    if from == |s| || AsAt(s, from) then from else FirstAs(s, from + 1)
  }

  /** The position just after the last newline before `j` (0 when there is none). */
  function LineStart(s: string, j: nat): (i: nat)
    requires j <= |s|
    ensures i <= j
    ensures i == 0 || s[i - 1] == '\n'
    ensures forall k :: i <= k < j ==> s[k] != '\n'
  {
    if j == 0 || s[j - 1] == '\n' then j else LineStart(s, j - 1)
  }

  function WordEnd(s: string, k: nat): (e: nat)
    requires k <= |s|
    ensures k <= e <= |s|
    ensures forall m :: k <= m < e ==> IsWordChar(s[m])
    ensures e < |s| ==> !IsWordChar(s[e])
    decreases |s| - k
  {
    if k == |s| || !IsWordChar(s[k]) then k else WordEnd(s, k + 1)
  }

  /** The search, computed from the first ` as ` followed by a word character. */
  function SearchAs(s: string): (m: Option<Match>)
    ensures m.Some? ==> && m.value.start <= m.value.asAt
                        && AsAt(s, m.value.asAt)
                        && m.value.asAt + 4 < m.value.end <= |s|
  {
    var j := FirstAs(s, 0);
    if j == |s| then None else Some(Match(LineStart(s, j), j, WordEnd(s, j + 4)))
  }

  /** `SearchAs` is `re.search` for the pattern: it finds nothing exactly
      when no match exists, and what it finds is the result the regular
      expression semantics prescribes. */
  lemma SearchAsIsReSearch(s: string)
    ensures SearchAs(s).None? <==> forall i, j :: !MatchesAt(s, i, j)
    ensures SearchAs(s).Some? ==> IsSearchResult(s, SearchAs(s).value)
  {
    var j0 := FirstAs(s, 0);
    if j0 == |s| {
      forall i, j ensures !MatchesAt(s, i, j) {
      }
    } else {
      var m := SearchAs(s).value;
      assert MatchesAt(s, m.start, j0);
      forall i, j | 0 <= i < m.start ensures !MatchesAt(s, i, j) {
        if j0 <= j {
          assert i <= m.start - 1 < j && s[m.start - 1] == '\n';
        }
      }
    }
  }

  // ---------------------------------------------------------------------
  // `do_google_news` and `GoogleNewsNode`

  /** A Django `template.Variable`, kept as the token text it was built from. */
  datatype Variable = Variable(token: string)

  /** `GoogleNewsNode(query, var_name=None)`: the query is wrapped in a
      `template.Variable`. */
  datatype GoogleNewsNode = GoogleNewsNode(query: Variable, varName: Option<string>)

  /** `GoogleNewsNode(query, var_name=None)`: the node keeps the query text as
      a `template.Variable`, unresolved, and the variable name as given. */
  function NewGoogleNewsNode(query: string, varName: Option<string> := None): (n: GoogleNewsNode)
    ensures n.query.token == query
    ensures n.varName == varName
  {
    GoogleNewsNode(Variable(query), varName)
  }

  /** The second half of `do_google_news`: the search on the tag's
      arguments and the node built from its groups, or from the whole text. */
  function NodeFromArgs(args: string): (n: GoogleNewsNode)
    ensures n.varName.None? <==> forall i, j :: !MatchesAt(args, i, j)
    ensures n.varName.None? ==> n.query == Variable(args)
    ensures n.varName.Some? ==>
      exists m :: && IsSearchResult(args, m)
                  && n.query == Variable(args[m.start..m.asAt])
                  && n.varName.value == args[m.asAt + 4..m.end]
  {
    SearchAsIsReSearch(args);
    match SearchAs(args)
    case None => NewGoogleNewsNode(args)
    case Some(m) => NewGoogleNewsNode(args[m.start..m.asAt], Some(args[m.asAt + 4..m.end]))
  }

  /** `do_google_news(parser, token)` on the token's contents. */
  function DoGoogleNews(contents: string): (r: Result<GoogleNewsNode>)
    ensures r.Ok? <==> |SplitOnce(contents)| == 2
    ensures r.Ok? ==> r.value == NodeFromArgs(SplitOnce(contents)[1])
    ensures |SplitOnce(contents)| == 1 ==>
      r == Err(TemplateSyntaxError(SplitOnce(contents)[0] + " takes at least one argument"))
    ensures SplitOnce(contents) == [] ==> r == Err(IndexError)
  {
    var parts := SplitOnce(contents);
    if |parts| == 2 then Ok(NodeFromArgs(parts[1]))
    else if |parts| == 1 then Err(TemplateSyntaxError(parts[0] + " takes at least one argument"))
    else Err(IndexError)
  }

  /** Without newlines in the arguments, the query is the shortest prefix
      before ` as ` and a word, and the variable name is the whole run of
      word characters after it. */
  lemma NodeFromArgsSplitsAtFirstAs(args: string, j: nat, e: nat)
    requires forall k :: 0 <= k < |args| ==> args[k] != '\n'
    requires AsAt(args, j) && forall k :: 0 <= k < j ==> !AsAt(args, k)
    requires j + 4 < e <= |args| && (forall k :: j + 4 <= k < e ==> IsWordChar(args[k]))
    requires e < |args| ==> !IsWordChar(args[e])
    ensures NodeFromArgs(args) == GoogleNewsNode(Variable(args[..j]), Some(args[j + 4..e]))
  {
    assert FirstAs(args, 0) == j;
    LineStartWithoutNewline(args, j);
    WordEndIsMaximalRun(args, j + 4, e);
  }

  lemma {:induction false} LineStartWithoutNewline(s: string, j: nat)
    requires j <= |s|
    requires forall k :: 0 <= k < j ==> s[k] != '\n'
    ensures LineStart(s, j) == 0
  {
    if j > 0 { LineStartWithoutNewline(s, j - 1); }
  }

  lemma {:induction false} WordEndIsMaximalRun(s: string, k: nat, e: nat)
    requires k <= e <= |s|
    requires forall m :: k <= m < e ==> IsWordChar(s[m])
    requires e < |s| ==> !IsWordChar(s[e])
    ensures WordEnd(s, k) == e
    decreases e - k
  {
    if k < e { WordEndIsMaximalRun(s, k + 1, e); }
  }

  /** A tag name followed by one space and arguments that do not start with
      whitespace splits into exactly those two pieces. */
  lemma SplitOnceTagAndArgs(tag: string, args: string)
    requires tag != [] && NoSpace(tag)
    requires args != [] && !IsSpace(args[0])
    ensures SplitOnce(tag + " " + args) == [tag, args]
  {
    var s := tag + " " + args;
    assert s[0] == tag[0];
    assert SkipSpace(s, 0) == 0;
    assert s[0..|tag|] == tag;
    SkipWordIsRun(s, 0, |tag|);
    assert s[|tag| + 1] == args[0];
    assert SkipSpace(s, |tag| + 1) == |tag| + 1;
    assert SkipSpace(s, |tag|) == |tag| + 1;
    assert s[|tag| + 1..] == args;
  }

  /** The example of the tag's documentation: `"Barack Obama" as obama_news`
      queries the quoted text, quotes included, and binds `obama_news`. */
  lemma DocumentedExample()
    ensures DoGoogleNews("google_news" + " " + ("\"Barack Obama\"" + " as " + "obama_news"))
         == Ok(GoogleNewsNode(Variable("\"Barack Obama\""), Some("obama_news")))
  {
    var tag, q, v := "google_news", "\"Barack Obama\"", "obama_news";
    forall k | 0 <= k < |tag| ensures !IsSpace(tag[k]) {
      assert k in {0, 1, 2, 3, 4, 5, 6, 7, 8, 9, 10};
    }
    forall k | 0 <= k < |q| ensures q[k] != '\n' && (q[k] != ' ' || (k + 1 < |q| && q[k + 1] != 'a')) {
      assert k in {0, 1, 2, 3, 4, 5, 6, 7, 8, 9, 10, 11, 12, 13};
    }
    forall k | 0 <= k < |v| ensures IsWordChar(v[k]) {
      assert k in {0, 1, 2, 3, 4, 5, 6, 7, 8, 9};
    }
    TagQueryAsName(tag, q, v);
  }

  /** The tag name, one space, then `q as v` as in `NodeFromQueryAsName`. */
  lemma TagQueryAsName(tag: string, q: string, v: string)
    requires tag != [] && NoSpace(tag)
    requires q != [] && !IsSpace(q[0])
    requires OneLine(q) && NoAsInside(q) && IsWord(v)
    ensures DoGoogleNews(tag + " " + (q + " as " + v)) == Ok(GoogleNewsNode(Variable(q), Some(v)))
  {
    SplitOnceTagAndArgs(tag, q + " as " + v);
    NodeFromQueryAsName(q, v);
  }

  predicate OneLine(s: string) {
    forall k :: 0 <= k < |s| ==> s[k] != '\n'
  }

  /** No ` as ` can start inside `s`, even when more text follows it. */
  predicate NoAsInside(s: string) {
    forall k :: 0 <= k < |s| ==> s[k] != ' ' || (k + 1 < |s| && s[k + 1] != 'a')
  }

  predicate IsWord(s: string) {
    s != [] && forall k :: 0 <= k < |s| ==> IsWordChar(s[k])
  }

  /** `q as v` with a one-line query that holds no ` as ` of its own and a
      variable name made of word characters: the query is `q` and the
      variable name `v`. */
  lemma NodeFromQueryAsName(q: string, v: string)
    requires OneLine(q) && NoAsInside(q) && IsWord(v)
    ensures NodeFromArgs(q + " as " + v) == GoogleNewsNode(Variable(q), Some(v))
  {
    var args := q + " as " + v;
    var j := |q|;
    forall k | 0 <= k < j ensures !AsAt(args, k) {
      assert args[k] == q[k];
      if k + 1 < |q| { assert args[k + 1] == q[k + 1]; }
      NotAsAt(args, k);
    }
    assert args[j..j + 4] == " as ";
    assert args[j + 4..|args|] == v;
    NodeFromArgsSplitsAtFirstAs(args, j, |args|);
    assert args[..j] == q;
  }

  lemma NotAsAt(s: string, k: nat)
    requires k + 1 < |s| && (s[k] != ' ' || s[k + 1] != 'a')
    ensures !AsAt(s, k)
  {
  }

  lemma {:induction false} SkipWordIsRun(s: string, i: nat, k: nat)
    requires i <= k <= |s|
    requires NoSpace(s[i..k])
    requires k < |s| ==> IsSpace(s[k])
    ensures SkipWord(s, i) == k
    decreases k - i
  {
    if i < k {
      assert !IsSpace(s[i..k][0]);
      assert s[i + 1..k] == s[i..k][1..];
      SkipWordIsRun(s, i + 1, k);
    }
  }

  // ---------------------------------------------------------------------
  // The rendering context and `GoogleNewsNode.render`

  /** Django's lookup in a stack of scopes: the innermost (last) scope that
      holds the key wins. */
  function LookupIn(dicts: seq<map<string, Json>>, key: string): (r: Option<Json>)
    ensures r.None? <==> forall i :: 0 <= i < |dicts| ==> key !in dicts[i]
    ensures r.Some? ==> exists i :: 0 <= i < |dicts| && key in dicts[i] && r.value == dicts[i][key] &&
                                    forall j :: i < j < |dicts| ==> key !in dicts[j]
  {
    if dicts == [] then None
    else if key in dicts[|dicts| - 1] then Some(dicts[|dicts| - 1][key])
    else
      var r := LookupIn(dicts[..|dicts| - 1], key);
      assert forall i :: 0 <= i < |dicts| - 1 ==> dicts[..|dicts| - 1][i] == dicts[i];
      r
  }

  /** Binding a key in the innermost scope makes lookups of that key give the
      new value and leaves every other key's lookup as it was. */
  lemma {:induction false} BindInnermost(dicts: seq<map<string, Json>>, key: string, value: Json, other: string)
    requires |dicts| > 0
    ensures var bound := dicts[..|dicts| - 1] + [dicts[|dicts| - 1][key := value]];
      LookupIn(bound, key) == Some(value) &&
      (other != key ==> LookupIn(bound, other) == LookupIn(dicts, other))
  {
    var bound := dicts[..|dicts| - 1] + [dicts[|dicts| - 1][key := value]];
    assert bound[..|bound| - 1] == dicts[..|dicts| - 1];
  }

  /** A Django rendering context: a stack of scopes, never empty. */
  class Context {
    var dicts: seq<map<string, Json>>

    ghost predicate Valid()
      reads this
    {
      |dicts| > 0
    }

    constructor (scope: map<string, Json>)
      ensures Valid() && dicts == [scope]
    {
      dicts := [scope];
    }

    function Lookup(key: string): Option<Json>
      reads this
    {
      LookupIn(dicts, key)
    }

    /** `context[key] = value`: writes the innermost scope. */
    method Set(key: string, value: Json)
      requires Valid()
      modifies this
      ensures Valid()
      ensures dicts == old(dicts[..|dicts| - 1] + [dicts[|dicts| - 1][key := value]])
      ensures Lookup(key) == Some(value)
      ensures forall k :: k != key ==> Lookup(k) == old(Lookup(k))
    {
      ghost var before := dicts;
      dicts := dicts[..|dicts| - 1] + [dicts[|dicts| - 1][key := value]];
      BindInnermost(before, key, value, key);
      forall k | k != key ensures Lookup(k) == LookupIn(before, k) {
        BindInnermost(before, key, value, k);
      }
    }
  }

  /** `json['responseData']['results']`. */
  function ResponseResults(response: Json): (r: Result<Json>)
    ensures r.Ok? <==> response.JObject? && "responseData" in response.fields &&
                       response.fields["responseData"].JObject? &&
                       "results" in response.fields["responseData"].fields
    ensures r.Ok? ==> r.value == response.fields["responseData"].fields["results"]
    ensures response.JObject? && "responseData" !in response.fields ==> r == Err(KeyError("responseData"))
  {
    match Index(response, "responseData")
    case Err(e) => Err(e)
    case Ok(data) => Index(data, "results")
  }

  /** The document shape the news-search service answers with. */
  function NewsResponse(records: seq<Json>): Json {
    JObject(map["responseData" := JObject(map["results" := JArray(records)])])
  }

  /** The records of a news-search answer come back as they were sent, in order. */
  lemma ResultsAreTheRecords(records: seq<Json>)
    ensures ResponseResults(NewsResponse(records)) == Ok(JArray(records))
  {
  }

  /** What `render` returns: the empty string after binding, or the results. */
  datatype Rendered = Text(s: string) | Results(results: Json)

  /** `if self.var_name:` — None and the empty string are false. */
  predicate BindsVariable(node: GoogleNewsNode) {
    node.varName.Some? && node.varName.value != ""
  }

  /** `GoogleNewsNode.render(context)` with `settings.GOOGLE_API_KEY` given
      as `apiKey` (None when the setting is absent). */
  method Render(node: GoogleNewsNode, context: Context, apiKey: Option<string>, fetch: Fetch)
    returns (req: Request, r: Result<Rendered>)
    requires context.Valid()
    modifies context
    ensures context.Valid()
    ensures req.prefix == GoogleNewsUrl
    ensures req.query.Keys == {"v", "rsz", "q"} + (if apiKey.Some? then {"key"} else {})
    ensures req.query["v"] == PText("1.0") && req.query["rsz"] == PText("large")
    ensures req.query["q"] == PTemplateVariable(node.query.token)
    ensures apiKey.Some? ==> req.query["key"] == PText(apiKey.value)
    ensures ResponseResults(fetch(req)).Err? ==>
      r == Err(ResponseResults(fetch(req)).error) && context.dicts == old(context.dicts)
    ensures ResponseResults(fetch(req)).Ok? && BindsVariable(node) ==>
      && r == Ok(Text(""))
      && context.dicts == old(context.dicts[..|context.dicts| - 1] +
           [context.dicts[|context.dicts| - 1][node.varName.value := ResponseResults(fetch(req)).value]])
      && context.Lookup(node.varName.value) == Some(ResponseResults(fetch(req)).value)
      && forall k :: k != node.varName.value ==> context.Lookup(k) == old(context.Lookup(k))
    ensures ResponseResults(fetch(req)).Ok? && !BindsVariable(node) ==>
      r == Ok(Results(ResponseResults(fetch(req)).value)) && context.dicts == old(context.dicts)
  {
    var params := map["v" := PText("1.0"), "rsz" := PText("large"),
                      "q" := PTemplateVariable(node.query.token)];
    if apiKey.Some? {
      params := params["key" := PText(apiKey.value)];
    }
    req := Request(GoogleNewsUrl, params);
    var results := ResponseResults(fetch(req));
    if results.Err? {
      return req, Err(results.error);
    }
    if BindsVariable(node) {
      context.Set(node.varName.value, results.value);
      return req, Ok(Text(""));
    }
    return req, Ok(Results(results.value));
  }
}

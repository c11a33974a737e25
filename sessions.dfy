/**
  The session helpers of `utils.py`: the session id built from the first
  query, the paths sessions are saved to and loaded from, the listing of
  saved sessions, the chat-history transforms of `save_session` and
  `load_session` over shared message objects, and the HTML export.  The
  clock, the directory listing, file modification times, the files' parsed
  contents and plotly's JSON codec are parameters.
 */
module Sessions {
  import opened PyValues
  import opened PyText

  const CHAT_HISTORY_DIR := "chat_history"
  const JSON_SUFFIX := ".json"
  /** The number of characters of the sanitised query a session id keeps. */
  const SLUG_LENGTH := 40

  // ---------------------------------------------------------------------
  // Session ids
  // ---------------------------------------------------------------------

  /** The characters `[^\w\s-]` does not match: the first substitution keeps these. */
  predicate Kept(c: char) {
    IsWordChar(c) || IsSpace(c) || c == '-'
  }

  /** `re.sub(r'[^\w\s-]', '', s)` */
  function KeepAllowed(s: string): (r: string)
    ensures |r| <= |s|
  {
    if s == [] then []
    else if Kept(s[0]) then [s[0]] + KeepAllowed(s[1..])
    else KeepAllowed(s[1..])
  }

  /** Every character the first substitution leaves is one it keeps, and a
      string of kept characters comes through unchanged. */
  lemma {:induction false} KeepAllowedSpec(s: string)
    ensures forall i :: 0 <= i < |KeepAllowed(s)| ==> Kept(KeepAllowed(s)[i])
    ensures (forall i :: 0 <= i < |s| ==> Kept(s[i])) ==> KeepAllowed(s) == s
  {
    if s != [] {
      KeepAllowedSpec(s[1..]);
      if Kept(s[0]) {
        assert [s[0]] + s[1..] == s;
      }
    }
  }

  /** The characters `[-\s]` matches. */
  predicate IsSeparator(c: char) {
    IsSpace(c) || c == '-'
  }

  /** Drops a leading run of separators. */
  function DropSeparators(s: string): (r: string)
    ensures |r| <= |s| && r == s[|s| - |r|..]
  {
    if s != [] && IsSeparator(s[0]) then DropSeparators(s[1..]) else s
  }

  /** `re.sub(r'[-\s]+', '_', s)`: each maximal run of whitespace and hyphens
      becomes a single underscore. */
  function CollapseSeparators(s: string): (r: string)
    ensures |r| <= |s|
    decreases |s|
  {
    if s == [] then []
    else if IsSeparator(s[0]) then "_" + CollapseSeparators(DropSeparators(s[1..]))
    else [s[0]] + CollapseSeparators(s[1..])
  }

  /** Collapsing leaves no separator behind. */
  lemma {:induction false} CollapseLeavesNoSeparator(s: string)
    ensures forall i :: 0 <= i < |CollapseSeparators(s)| ==> !IsSeparator(CollapseSeparators(s)[i])
    decreases |s|
  {
    if s != [] {
      if IsSeparator(s[0]) {
        CollapseLeavesNoSeparator(DropSeparators(s[1..]));
      } else {
        CollapseLeavesNoSeparator(s[1..]);
      }
    }
  }

  /** Collapsing a string of kept characters gives only word characters. */
  lemma {:induction false} CollapseOfKept(s: string)
    requires forall i :: 0 <= i < |s| ==> Kept(s[i])
    ensures forall i :: 0 <= i < |CollapseSeparators(s)| ==> IsWordChar(CollapseSeparators(s)[i])
    decreases |s|
  {
    if s != [] {
      if IsSeparator(s[0]) {
        var t := DropSeparators(s[1..]);
        assert forall i :: 0 <= i < |t| ==> t[i] == s[1..][|s[1..]| - |t| + i];
        CollapseOfKept(t);
      } else {
        CollapseOfKept(s[1..]);
      }
    }
  }

  /** A character outside `\w`, `\s` and '-' is deleted, not replaced. */
  lemma KeepAllowedDrops(c: char)
    requires !Kept(c)
    ensures KeepAllowed([c]) == []
  {
    assert [c][1..] == [];
  }

  /** A character inside `\w`, `\s` and '-' is kept as it is. */
  lemma KeepAllowedKeeps(c: char)
    requires Kept(c)
    ensures KeepAllowed([c]) == [c]
  {
    assert [c][1..] == [];
  }

  /** The filter works character by character: filtering a concatenation
      filters each part and keeps them in order. */
  lemma {:induction false} KeepAllowedAppend(a: string, b: string)
    ensures KeepAllowed(a + b) == KeepAllowed(a) + KeepAllowed(b)
    decreases |a|
  {
    if a == [] {
      assert a + b == b;
    } else {
      var s := a + b;
      assert s[0] == a[0];
      assert s[1..] == a[1..] + b;
      KeepAllowedAppend(a[1..], b);
      if Kept(a[0]) {
        assert [a[0]] + (KeepAllowed(a[1..]) + KeepAllowed(b)) == [a[0]] + KeepAllowed(a[1..]) + KeepAllowed(b);
      }
    }
  }

  /** A whole run of separators is dropped, up to the first character
      that is not one. */
  lemma {:induction false} DropSeparatorRun(sep: string, rest: string)
    requires forall i :: 0 <= i < |sep| ==> IsSeparator(sep[i])
    requires rest == [] || !IsSeparator(rest[0])
    ensures DropSeparators(sep + rest) == rest
    decreases |sep|
  {
    if sep == [] {
      assert sep + rest == rest;
    } else {
      var s := sep + rest;
      assert s[0] == sep[0];
      assert s[1..] == sep[1..] + rest;
      DropSeparatorRun(sep[1..], rest);
    }
  }

  /** A leading run of separators becomes one '_'. */
  lemma CollapseLeadingRun(sep: string, rest: string)
    requires sep != [] && forall i :: 0 <= i < |sep| ==> IsSeparator(sep[i])
    requires rest == [] || !IsSeparator(rest[0])
    ensures CollapseSeparators(sep + rest) == "_" + CollapseSeparators(rest)
  {
    var s := sep + rest;
    assert s[0] == sep[0];
    assert s[1..] == sep[1..] + rest;
    DropSeparatorRun(sep[1..], rest);
    assert CollapseSeparators(s) == "_" + CollapseSeparators(DropSeparators(s[1..]));
  }

  /** Characters before a separator run are kept as they are, and the
      whole run becomes one '_'. */
  lemma {:induction false} CollapseRun(w: string, sep: string, rest: string)
    requires forall i :: 0 <= i < |w| ==> !IsSeparator(w[i])
    requires sep != [] && forall i :: 0 <= i < |sep| ==> IsSeparator(sep[i])
    requires rest == [] || !IsSeparator(rest[0])
    ensures CollapseSeparators(w + sep + rest) == w + "_" + CollapseSeparators(rest)
    decreases |w|
  {
    var s := w + sep + rest;
    var tail := "_" + CollapseSeparators(rest);
    if w == [] {
      assert s == sep + rest;
      CollapseLeadingRun(sep, rest);
      assert w + tail == tail;
    } else {
      assert s[0] == w[0] && !IsSeparator(s[0]);
      assert s[1..] == w[1..] + sep + rest;
      assert CollapseSeparators(s) == [w[0]] + CollapseSeparators(s[1..]);
      CollapseRun(w[1..], sep, rest);
      assert [w[0]] + (w[1..] + tail) == w + tail;
    }
    assert w + "_" + CollapseSeparators(rest) == w + tail;
  }

  /** A string without separators is unchanged by collapsing. */
  lemma {:induction false} CollapseWithoutSeparators(s: string)
    requires forall i :: 0 <= i < |s| ==> !IsSeparator(s[i])
    ensures CollapseSeparators(s) == s
    decreases |s|
  {
    if s != [] {
      CollapseWithoutSeparators(s[1..]);
      assert [s[0]] + s[1..] == s;
    }
  }

  /** The whole sanitised query: disallowed characters removed, ends
      stripped, separator runs collapsed to '_', lower-cased. */
  function Sanitize(query: string): (r: string)
    ensures |r| <= |query|
  {
    Lower(CollapseSeparators(Strip(KeepAllowed(query))))
  }

  /** `sanitized_query[:40]` */
  function Slug(query: string): (r: string)
    ensures |r| <= SLUG_LENGTH && r <= Sanitize(query)
    ensures |Sanitize(query)| <= SLUG_LENGTH ==> r == Sanitize(query)
    ensures |Sanitize(query)| > SLUG_LENGTH ==> |r| == SLUG_LENGTH
  {
    var full := Sanitize(query);
    if |full| <= SLUG_LENGTH then full else full[..SLUG_LENGTH]
  }

  /** `get_session_id`, with the date string `datetime.now()` formats passed in. */
  function SessionId(date: string, query: string): (r: string)
    ensures date + "_" <= r
    ensures |r| <= |date| + 1 + SLUG_LENGTH
  {
    date + "_" + Slug(query)
  }

  /** A lower-case word character. */
  predicate SlugChar(c: char) {
    IsWordChar(c) && !IsUpper(c)
  }

  /** The sanitised query holds only lower-case word characters. */
  lemma SanitizedChars(query: string)
    ensures forall i :: 0 <= i < |Sanitize(query)| ==> SlugChar(Sanitize(query)[i])
  {
    var k := KeepAllowed(query);
    KeepAllowedSpec(query);
    var t := Strip(k);
    StripSpec(k);
    var lo := |k| - |TrimStart(k)|;
    assert forall i :: 0 <= i < |t| ==> t[i] == k[lo + i];
    CollapseOfKept(t);
  }

  /** A session id is the date, an underscore and a slug of at most 40
      lower-case word characters that begins the sanitised query and is all
      of it when that is short enough. */
  lemma SessionIdShape(date: string, query: string)
    ensures var id := SessionId(date, query); var slug := id[|date| + 1..];
      && id[..|date| + 1] == date + "_"
      && |slug| <= SLUG_LENGTH
      && slug <= Sanitize(query)
      && (|Sanitize(query)| <= SLUG_LENGTH ==> slug == Sanitize(query))
      && (forall i :: 0 <= i < |slug| ==> SlugChar(slug[i]))
  {
    SanitizedChars(query);
    var id := SessionId(date, query);
    assert id[|date| + 1..] == Slug(query);
  }

  /** Sanitising a string of lower-case word characters changes nothing. */
  lemma SanitizeOfSlugChars(s: string)
    requires forall i :: 0 <= i < |s| ==> SlugChar(s[i])
    ensures Sanitize(s) == s
  {
    KeepAllowedSpec(s);
    if s != [] {
      StripIdentity(s);
    }
    CollapseWithoutSeparators(s);
    LowerOfLowerCase(s);
  }

  /** Sanitising is idempotent, so a session id's slug sanitises to itself. */
  lemma SanitizeIdempotent(query: string)
    ensures Sanitize(Sanitize(query)) == Sanitize(query)
    ensures Sanitize(Slug(query)) == Slug(query)
  {
    SanitizedChars(query);
    SanitizeOfSlugChars(Sanitize(query));
    SanitizeOfSlugChars(Slug(query));
  }

  // ---------------------------------------------------------------------
  // Paths and the session listing
  // ---------------------------------------------------------------------

  /** `os.path.join(directory, name)` on POSIX: an absolute name replaces the
      directory, and a separator is added unless the directory is empty or
      already ends in one. */
  function JoinPath(directory: string, name: string): (r: string)
    ensures |name| <= |r| && r[|r| - |name|..] == name
    ensures (name == [] || name[0] != '/') ==> directory <= r
  {
    if name != [] && name[0] == '/' then name
    else if directory == [] || directory[|directory| - 1] == '/' then directory + name
    else directory + "/" + name
  }

  /** The file `save_session` writes. */
  function SavePath(sessionId: string): (r: string)
    ensures (sessionId == [] || sessionId[0] != '/') ==> r == CHAT_HISTORY_DIR + "/" + sessionId + JSON_SUFFIX
    ensures sessionId != [] && sessionId[0] == '/' ==> r == sessionId + JSON_SUFFIX
  {
    JoinPath(CHAT_HISTORY_DIR, sessionId + JSON_SUFFIX)
  }

  /** The file `load_session` reads: no suffix is added. */
  function LoadPath(sessionId: string): (r: string)
    ensures (sessionId == [] || sessionId[0] != '/') ==> r == CHAT_HISTORY_DIR + "/" + sessionId
    ensures sessionId != [] && sessionId[0] == '/' ==> r == sessionId
  {
    JoinPath(CHAT_HISTORY_DIR, sessionId)
  }

  /** Saving under an id writes the file that loading reads only when given
      the id with ".json" appended; loading by the bare id reads another
      file.  A listed name, which ends in ".json", loads the file saved
      under the name without its suffix. */
  lemma SaveAndLoadPaths(sessionId: string, name: string)
    ensures SavePath(sessionId) == LoadPath(sessionId + JSON_SUFFIX)
    ensures SavePath(sessionId) != LoadPath(sessionId)
    ensures EndsWith(SavePath(sessionId), JSON_SUFFIX)
    ensures EndsWith(name, JSON_SUFFIX) ==>
      LoadPath(name) == SavePath(name[..|name| - |JSON_SUFFIX|])
  {
    if EndsWith(name, JSON_SUFFIX) {
      assert name[..|name| - |JSON_SUFFIX|] + JSON_SUFFIX == name;
    }
  }

  /** `[f for f in files if f.endswith('.json')]` */
  function JsonFiles(files: seq<string>): (r: seq<string>)
    ensures multiset(r) <= multiset(files)
    ensures forall f :: f in r <==> f in files && EndsWith(f, JSON_SUFFIX)
  {
    if files == [] then []
    else
      assert files == [files[0]] + files[1..];
      if EndsWith(files[0], JSON_SUFFIX) then [files[0]] + JsonFiles(files[1..])
      else JsonFiles(files[1..])
  }

  /** The filter keeps the listing's order: filtering a concatenation
      filters each part, in order. */
  lemma {:induction false} JsonFilesAppend(a: seq<string>, b: seq<string>)
    ensures JsonFiles(a + b) == JsonFiles(a) + JsonFiles(b)
    decreases |a|
  {
    if a == [] {
      assert a + b == b;
    } else {
      assert (a + b)[0] == a[0];
      assert (a + b)[1..] == a[1..] + b;
      JsonFilesAppend(a[1..], b);
      if EndsWith(a[0], JSON_SUFFIX) {
        assert [a[0]] + (JsonFiles(a[1..]) + JsonFiles(b)) == [a[0]] + JsonFiles(a[1..]) + JsonFiles(b);
      }
    }
  }

  /** Ordered by non-increasing key. */
  predicate NewestFirst(s: seq<string>, key: string -> int) {
    forall i, j :: 0 <= i < j < |s| ==> key(s[i]) >= key(s[j])
  }

  /** Places `f` after every element whose key is greater than its own and
      before the rest, so that `f`, which came first in the input, stays
      ahead of the elements whose key equals its own. */
  function Insert(f: string, sorted: seq<string>, key: string -> int): (r: seq<string>)
    ensures multiset(r) == multiset(sorted) + multiset{f}
  {
    if sorted == [] || key(f) >= key(sorted[0]) then [f] + sorted
    else
      assert sorted == [sorted[0]] + sorted[1..];
      [sorted[0]] + Insert(f, sorted[1..], key)
  }

  /** A bound on every key survives inserting a key within it. */
  lemma {:induction false} InsertBounded(f: string, sorted: seq<string>, key: string -> int, bound: int)
    requires key(f) <= bound
    requires forall j :: 0 <= j < |sorted| ==> key(sorted[j]) <= bound
    ensures forall j :: 0 <= j < |Insert(f, sorted, key)| ==> key(Insert(f, sorted, key)[j]) <= bound
  {
    if sorted != [] && key(f) < key(sorted[0]) {
      InsertBounded(f, sorted[1..], key, bound);
    }
  }

  /** Inserting into a list ordered newest first keeps it so. */
  lemma {:induction false} InsertNewestFirst(f: string, sorted: seq<string>, key: string -> int)
    requires NewestFirst(sorted, key)
    ensures NewestFirst(Insert(f, sorted, key), key)
  {
    if sorted != [] && key(f) < key(sorted[0]) {
      var rest := Insert(f, sorted[1..], key);
      InsertNewestFirst(f, sorted[1..], key);
      InsertBounded(f, sorted[1..], key, key(sorted[0]));
      var r := [sorted[0]] + rest;
      forall a, b | 0 <= a < b < |r| ensures key(r[a]) >= key(r[b]) {
        assert r[b] == rest[b - 1];
        if a > 0 {
          assert r[a] == rest[a - 1];
        }
      }
      assert Insert(f, sorted, key) == r;
    }
  }

  /** The elements of `s` whose key is `t`, in their order in `s`. */
  function WithKey(s: seq<string>, key: string -> int, t: int): seq<string> {
    if s == [] then []
    else (if key(s[0]) == t then [s[0]] else []) + WithKey(s[1..], key, t)
  }

  /** Inserting `f` puts it ahead of every element with its key and moves
      no element past another with the same key. */
  lemma {:induction false} WithKeyInsert(f: string, sorted: seq<string>, key: string -> int, t: int)
    ensures WithKey(Insert(f, sorted, key), key, t) ==
      (if key(f) == t then [f] else []) + WithKey(sorted, key, t)
  {
    var r := Insert(f, sorted, key);
    if sorted == [] || key(f) >= key(sorted[0]) {
      assert r[1..] == sorted;
    } else {
      var rest := Insert(f, sorted[1..], key);
      assert r[1..] == rest;
      WithKeyInsert(f, sorted[1..], key, t);
    }
  }

  /** `sorted(files, key=key, reverse=True)`: a stable sort, newest first. */
  function SortNewestFirst(files: seq<string>, key: string -> int): (r: seq<string>)
    ensures multiset(r) == multiset(files)
    ensures NewestFirst(r, key)
  {
    if files == [] then []
    else
      assert files == [files[0]] + files[1..];
      InsertNewestFirst(files[0], SortNewestFirst(files[1..], key), key);
      Insert(files[0], SortNewestFirst(files[1..], key), key)
  }

  /** The sort is stable: the elements with any one key come out in their
      input order. */
  lemma {:induction false} SortStable(files: seq<string>, key: string -> int, t: int)
    ensures WithKey(SortNewestFirst(files, key), key, t) == WithKey(files, key, t)
  {
    if files != [] {
      SortStable(files[1..], key, t);
      WithKeyInsert(files[0], SortNewestFirst(files[1..], key), key, t);
    }
  }

  /** The key `list_sessions` sorts by: the modification time of the file. */
  function SessionTime(mtime: string -> int): string -> int {
    f => mtime(JoinPath(CHAT_HISTORY_DIR, f))
  }

  /** `list_sessions`: `listing` is the directory's contents, absent when the
      directory does not exist, and `mtime` gives each path's modification
      time. */
  function ListSessions(listing: Option<seq<string>>, mtime: string -> int): (r: seq<string>)
    ensures listing.None? ==> r == []
    ensures listing.Some? ==> multiset(r) == multiset(JsonFiles(listing.value))
  {
    match listing
    case None => []
    case Some(files) => SortNewestFirst(JsonFiles(files), SessionTime(mtime))
  }

  /** The listing is empty without a directory; otherwise it holds each
      ".json" name of the directory as often as the directory does, and no
      other name, newest first, with files of equal modification time in
      the directory's order. */
  lemma ListSessionsSpec(listing: Option<seq<string>>, mtime: string -> int)
    ensures listing.None? ==> ListSessions(listing, mtime) == []
    ensures listing.Some? ==>
      multiset(ListSessions(listing, mtime)) == multiset(JsonFiles(listing.value))
    ensures forall f :: f in ListSessions(listing, mtime) <==>
      listing.Some? && f in listing.value && EndsWith(f, JSON_SUFFIX)
    ensures var r := ListSessions(listing, mtime);
      forall i, j :: 0 <= i < j < |r| ==>
        mtime(JoinPath(CHAT_HISTORY_DIR, r[i])) >= mtime(JoinPath(CHAT_HISTORY_DIR, r[j]))
    ensures forall t :: listing.Some? ==>
      WithKey(ListSessions(listing, mtime), SessionTime(mtime), t) ==
        WithKey(JsonFiles(listing.value), SessionTime(mtime), t)
  {
    if listing.Some? {
      forall t ensures WithKey(ListSessions(listing, mtime), SessionTime(mtime), t) ==
        WithKey(JsonFiles(listing.value), SessionTime(mtime), t)
      {
        SortStable(JsonFiles(listing.value), SessionTime(mtime), t);
      }
      var r := ListSessions(listing, mtime);
      forall f ensures f in r <==> f in JsonFiles(listing.value) {
        assert f in r <==> f in multiset(r);
      }
    }
  }

  /** Two sessions saved at the same time are listed in the directory's order. */
  lemma TiesKeepListingOrder()
    ensures ListSessions(Some(["a.json", "b.json"]), p => 7) == ["a.json", "b.json"]
  {
    var files := ["a.json", "b.json"];
    assert EndsWith(files[0], JSON_SUFFIX) && EndsWith(files[1], JSON_SUFFIX);
    assert files[1..] == ["b.json"];
    assert JsonFiles(files) == files;
  }

  // ---------------------------------------------------------------------
  // JSON encoding of values
  // ---------------------------------------------------------------------

  /** `json.dump` of a value: None where it raises a TypeError, which it does
      for figures and dataframes. */
  function Encode(v: Value): Option<Json> {
    match v
    case StrV(s) => Some(JString(s))
    case IntV(n) => Some(JNumber(n))
    case BoolV(b) => Some(JBool(b))
    case NoneV => Some(JNull)
    case FigureV(_) => None
    case FrameV(_) => None
    case ListV(items) =>
      if forall i | 0 <= i < |items| :: Encode(items[i]).Some? then
        Some(JArray(seq(|items|, i requires 0 <= i < |items| && Encode(items[i]).Some? =>
          Encode(items[i]).value)))
      else None
    case DictV(entries) =>
      if forall k | k in entries :: Encode(entries[k]).Some? then
        Some(JObject(map k | k in entries :: Encode(entries[k]).value))
      else None
  }

  /** `json.load` of a document: an object nested in a value is a dict. */
  function Decode(j: Json): (v: Value)
    ensures v.DictV? <==> j.JObject?
    ensures JsonSafe(v)
  {
    match j
    case JNull => NoneV
    case JBool(b) => BoolV(b)
    case JNumber(n) => IntV(n)
    case JString(s) => StrV(s)
    case JArray(items) => ListV(seq(|items|, i requires 0 <= i < |items| => Decode(items[i])))
    case JObject(fields) => DictV(map k | k in fields :: Decode(fields[k]))
  }

  /** The values JSON holds: no figure or dataframe anywhere inside. */
  predicate JsonSafe(v: Value) {
    match v
    case FigureV(_) => false
    case FrameV(_) => false
    case ListV(items) => forall i | 0 <= i < |items| :: JsonSafe(items[i])
    case DictV(entries) => forall k | k in entries :: JsonSafe(entries[k])
    case _ => true
  }

  /** `json.dump` raises exactly on a value with a figure or a dataframe
      somewhere inside. */
  lemma {:induction false} EncodeSucceeds(v: Value)
    ensures Encode(v).Some? <==> JsonSafe(v)
  {
    match v
    case ListV(items) =>
      forall i | 0 <= i < |items| ensures Encode(items[i]).Some? <==> JsonSafe(items[i]) {
        EncodeSucceeds(items[i]);
      }
    case DictV(entries) =>
      forall k | k in entries ensures Encode(entries[k]).Some? <==> JsonSafe(entries[k]) {
        EncodeSucceeds(entries[k]);
      }
    case _ =>
  }

  /** Dumping a value figures and dataframes are absent from succeeds, and
      loading the dump gives the value back. */
  lemma {:induction false} JsonRoundTrip(v: Value)
    requires JsonSafe(v)
    ensures Encode(v).Some? && Decode(Encode(v).value) == v
  {
    match v
    case ListV(items) =>
      forall i | 0 <= i < |items| ensures Encode(items[i]).Some? && Decode(Encode(items[i]).value) == items[i] {
        JsonRoundTrip(items[i]);
      }
      assert Decode(Encode(v).value).items == items;
    case DictV(entries) =>
      forall k | k in entries ensures Encode(entries[k]).Some? && Decode(Encode(entries[k]).value) == entries[k] {
        JsonRoundTrip(entries[k]);
      }
      assert Decode(Encode(v).value).entries == entries;
    case _ =>
  }

  // ---------------------------------------------------------------------
  // The chat history as shared objects
  // ---------------------------------------------------------------------

  /** A dict held as a message's content.  `msg.copy()` is shallow, so the
      copy of a message holds the very same dict. */
  class ContentDict {
    var entries: map<string, Value>

    constructor (entries: map<string, Value>)
      ensures this.entries == entries
    {
      this.entries := entries;
    }
  }

  /** A content value other than a dict: dict content is a `ContentDict`. */
  type Plain = v: Value | !v.DictV? witness NoneV

  datatype Content = PlainContent(value: Plain) | DictContent(dict: ContentDict)

  /** A chat message `{"role": ..., "content": ...}`. */
  class Message {
    var role: string
    var content: Content

    constructor (role: string, content: Content)
      ensures this.role == role && this.content == content
    {
      this.role := role;
      this.content := content;
    }
  }

  /** What a message holds, with its dict read through. */
  datatype ContentView = PlainView(value: Plain) | DictView(entries: map<string, Value>)

  datatype MessageView = MessageView(role: string, content: ContentView)

  /** The dicts a history's messages hold. */
  function Dicts(history: seq<Message>): set<ContentDict>
    reads history
  {
    set i | 0 <= i < |history| && history[i].content.DictContent? :: history[i].content.dict
  }

  function ViewOf(m: Message): MessageView
    reads m, if m.content.DictContent? then {m.content.dict} else {}
  {
    match m.content
    case PlainContent(v) => MessageView(m.role, PlainView(v))
    case DictContent(d) => MessageView(m.role, DictView(d.entries))
  }

  function Views(history: seq<Message>): (views: seq<MessageView>)
    reads history, Dicts(history)
    ensures |views| == |history|
  {
    seq(|history|, i requires 0 <= i < |history| reads history, Dicts(history) =>
      ViewOf(history[i]))
  }

  /** No two messages are one object and no two hold one dict, as is so of
      what `json.load` builds. */
  predicate Separate(history: seq<Message>)
    reads history
  {
    forall j, k :: 0 <= j < k < |history| ==>
      && history[j] != history[k]
      && (history[j].content.DictContent? && history[k].content.DictContent? ==>
            history[j].content.dict != history[k].content.dict)
  }

  // ---------------------------------------------------------------------
  // save_session
  // ---------------------------------------------------------------------

  /** `content.get("type") == "plot"` */
  predicate IsPlotDict(entries: map<string, Value>) {
    "type" in entries && entries["type"] == StrV("plot")
  }

  /** A plot dict whose data is a figure. */
  predicate HoldsFigure(entries: map<string, Value>) {
    IsPlotDict(entries) && "data" in entries && entries["data"].FigureV?
  }

  /** What saving does to a content dict: a plot's figure becomes its JSON
      text, `pio.to_json`, which `toJson` stands for. */
  function SerializeEntries(entries: map<string, Value>, toJson: Figure -> string): (r: map<string, Value>)
    ensures !HoldsFigure(r)
    ensures !HoldsFigure(entries) ==> r == entries
  {
    if HoldsFigure(entries) then entries["data" := StrV(toJson(entries["data"].fig))]
    else entries
  }

  /** Saving replaces a plot dict's figure by its text and changes no other
      entry; converting a dict twice is converting it once, so a dict two
      messages share ends up converted once. */
  lemma SerializeEntriesSpec(entries: map<string, Value>, toJson: Figure -> string)
    ensures var r := SerializeEntries(entries, toJson);
      && r.Keys == entries.Keys
      && (forall k | k in entries && k != "data" :: r[k] == entries[k])
      && (HoldsFigure(entries) ==> r["data"] == StrV(toJson(entries["data"].fig)))
      && SerializeEntries(r, toJson) == r
  {
  }

  /** `[pio.to_json(fig) for fig in content]` */
  function FigureTexts(items: seq<Value>, toJson: Figure -> string): (v: Value)
    requires AllFigures(items)
    ensures v.ListV?
  {
    ListV(seq(|items|, i requires 0 <= i < |items| => StrV(toJson(items[i].fig))))
  }

  /** A list all of whose items are figures (the empty list included). */
  predicate IsFigureList(v: Value) {
    v.ListV? && AllFigures(v.items)
  }

  /** The content the copy of a message gets: the same dict, a new list of
      figure texts for a figure list, otherwise the same value. */
  function CopyContent(c: Content, toJson: Figure -> string): (r: Content)
    ensures r.DictContent? <==> c.DictContent?
    ensures c.DictContent? ==> r.dict == c.dict
    ensures c.PlainContent? ==> PlainView(r.value) == SerializeContent(PlainView(c.value), toJson)
  {
    match c
    case DictContent(_) => c
    case PlainContent(v) =>
      if IsFigureList(v) then PlainContent(FigureTexts(v.items, toJson)) else c
  }

  /** Saving changes a message's content only where it is a plot dict with
      a figure or a figure list. */
  predicate Converted(c: ContentView) {
    match c
    case DictView(e) => HoldsFigure(e)
    case PlainView(v) => IsFigureList(v)
  }

  /** The content as written to the file. */
  function SerializeContent(c: ContentView, toJson: Figure -> string): (r: ContentView)
    ensures !Converted(c) ==> r == c
    ensures r.DictView? <==> c.DictView?
    ensures r.DictView? ==> !HoldsFigure(r.entries) && r.entries.Keys == c.entries.Keys
  {
    match c
    case DictView(e) => DictView(SerializeEntries(e, toJson))
    case PlainView(v) =>
      if IsFigureList(v) then PlainView(FigureTexts(v.items, toJson)) else c
  }

  /** The history as written: same length and order, same roles, each
      message's content serialised. */
  function SerializeHistory(history: seq<MessageView>, toJson: Figure -> string): (r: seq<MessageView>)
    ensures |r| == |history|
    ensures forall i :: 0 <= i < |history| ==>
      r[i].role == history[i].role && r[i].content == SerializeContent(history[i].content, toJson)
    ensures forall i :: 0 <= i < |history| && !Converted(history[i].content) ==> r[i] == history[i]
  {
    seq(|history|, i requires 0 <= i < |history| =>
      history[i].(content := SerializeContent(history[i].content, toJson)))
  }

  /** What the caller's own history shows after saving: its plot dicts were
      converted in place; its lists were not touched. */
  function SharedEffect(history: seq<MessageView>, toJson: Figure -> string): (r: seq<MessageView>)
    ensures |r| == |history|
    ensures forall i :: 0 <= i < |history| ==> r[i].role == history[i].role
    ensures forall i :: 0 <= i < |history| && history[i].content.PlainView? ==> r[i] == history[i]
    ensures forall i :: 0 <= i < |history| && history[i].content.DictView? ==>
      r[i] == SerializeHistory(history, toJson)[i]
  {
    seq(|history|, i requires 0 <= i < |history| =>
      if history[i].content.DictView? then
        history[i].(content := SerializeContent(history[i].content, toJson))
      else history[i])
  }

  function EncodeContent(c: ContentView): Option<Json> {
    match c
    case PlainView(v) => Encode(v)
    case DictView(e) => Encode(DictV(e))
  }

  function EncodeMessage(role: string, content: Json): Json {
    JObject(map["role" := JString(role), "content" := content])
  }

  /** The messages as JSON, or None when one of them cannot be dumped. */
  function EncodeHistory(history: seq<MessageView>): (r: Option<seq<Json>>)
    ensures r.Some? ==> |r.value| == |history|
  {
    if history == [] then Some([])
    else
      var first := EncodeContent(history[0].content);
      var rest := EncodeHistory(history[1..]);
      if first.Some? && rest.Some? then Some([EncodeMessage(history[0].role, first.value)] + rest.value)
      else None
  }

  /** The document `save_session` dumps, or None when `json.dump` raises. */
  function SessionDocument(history: seq<MessageView>, dfInfo: Json): Option<Json> {
    match EncodeHistory(history)
    case None => None
    case Some(messages) =>
      Some(JObject(map["chat_history" := JArray(messages), "dataframe_info" := dfInfo]))
  }

  /** One step of `save_session`: the shallow copy of a message, with the
      figure of a plot dict turned into text in the dict the copy shares. */
  method CopyForSave(msg: Message, toJson: Figure -> string) returns (newMsg: Message)
    modifies if msg.content.DictContent? then {msg.content.dict} else {}
    ensures fresh(newMsg)
    ensures newMsg.role == msg.role && newMsg.content == CopyContent(msg.content, toJson)
    ensures msg.content.DictContent? ==>
      msg.content.dict.entries == SerializeEntries(old(msg.content.dict.entries), toJson)
  {
    newMsg := new Message(msg.role, msg.content);
    match newMsg.content {
      case DictContent(d) =>
        if HoldsFigure(d.entries) {
          d.entries := d.entries["data" := StrV(toJson(d.entries["data"].fig))];
        }
      case PlainContent(v) =>
        if IsFigureList(v) {
          newMsg.content := PlainContent(FigureTexts(v.items, toJson));
        }
    }
  }

  /** The loop of `save_session`: a shallow copy of every message, in order. */
  method CopyAllForSave(chatHistory: seq<Message>, toJson: Figure -> string)
    returns (serializable: seq<Message>)
    modifies Dicts(chatHistory)
    ensures |serializable| == |chatHistory|
    ensures forall j :: 0 <= j < |serializable| ==> fresh(serializable[j])
    ensures forall j :: 0 <= j < |chatHistory| ==>
      serializable[j].role == chatHistory[j].role &&
      serializable[j].content == CopyContent(chatHistory[j].content, toJson)
    ensures forall j :: 0 <= j < |chatHistory| && chatHistory[j].content.DictContent? ==>
      chatHistory[j].content.dict.entries ==
        SerializeEntries(old(chatHistory[j].content.dict.entries), toJson)
  {
    serializable := [];
    ghost var done: set<ContentDict> := {};
    var i := 0;
    while i < |chatHistory|
      invariant 0 <= i <= |chatHistory| && |serializable| == i
      invariant forall j :: 0 <= j < i ==> fresh(serializable[j])
      invariant forall j :: 0 <= j < |chatHistory| ==> chatHistory[j].content == old(chatHistory[j].content)
      invariant forall j :: 0 <= j < i ==>
        serializable[j].role == chatHistory[j].role &&
        serializable[j].content == CopyContent(chatHistory[j].content, toJson)
      invariant forall d | d in Dicts(chatHistory) ::
        d.entries == if d in done then SerializeEntries(old(d.entries), toJson) else old(d.entries)
      invariant forall j :: 0 <= j < i && chatHistory[j].content.DictContent? ==>
        chatHistory[j].content.dict in done
    {
      var msg := chatHistory[i];
      assert msg.content.DictContent? ==> msg.content.dict in Dicts(chatHistory);
      var newMsg := CopyForSave(msg, toJson);
      if msg.content.DictContent? {
        done := done + {msg.content.dict};
      }
      serializable := serializable + [newMsg];
      i := i + 1;
    }
    forall j | 0 <= j < |chatHistory| && chatHistory[j].content.DictContent?
      ensures chatHistory[j].content.dict.entries ==
        SerializeEntries(old(chatHistory[j].content.dict.entries), toJson)
    {
      assert chatHistory[j].content.dict in Dicts(chatHistory);
    }
  }

  /** `save_session`: turns figures into JSON text in a shallow copy of the
      history and returns the path written, the copy and the document dumped
      (None where `json.dump` raises).  The caller's plot dicts are changed
      too, because the copy shares them. */
  method SaveSession(sessionId: string, chatHistory: seq<Message>, dfInfo: Json, toJson: Figure -> string)
    returns (path: string, serializable: seq<Message>, document: Option<Json>)
    modifies Dicts(chatHistory)
    ensures path == SavePath(sessionId)
    ensures forall i :: 0 <= i < |serializable| ==> fresh(serializable[i])
    ensures Views(serializable) == SerializeHistory(old(Views(chatHistory)), toJson)
    ensures Views(chatHistory) == SharedEffect(old(Views(chatHistory)), toJson)
    ensures document == SessionDocument(Views(serializable), dfInfo)
  {
    ghost var before := Views(chatHistory);
    serializable := CopyAllForSave(chatHistory, toJson);
    forall j | 0 <= j < |chatHistory|
      ensures Views(serializable)[j] == SerializeHistory(before, toJson)[j]
      ensures Views(chatHistory)[j] == SharedEffect(before, toJson)[j]
    {
      assert Views(serializable)[j] == ViewOf(serializable[j]);
      assert Views(chatHistory)[j] == ViewOf(chatHistory[j]);
    }
    path := SavePath(sessionId);
    document := SessionDocument(Views(serializable), dfInfo);
  }

  // ---------------------------------------------------------------------
  // load_session
  // ---------------------------------------------------------------------

  /** A message as `json.load` reads it from a saved file. */
  datatype StoredMessage = StoredMessage(role: string, content: Json)

  /** A saved file's contents, as far as `save_session` shapes them. */
  datatype StoredSession = StoredSession(messages: seq<StoredMessage>, dataframeInfo: Json)

  /** The messages of a saved history; None for an item that is not an
      object with exactly a string role and a content. */
  function StoredMessages(items: seq<Json>): (r: Option<seq<StoredMessage>>)
    ensures r.Some? ==> |r.value| == |items|
  {
    if items == [] then Some([])
    else
      var item := items[0];
      if item.JObject? && item.fields.Keys == {"role", "content"} && item.fields["role"].JString? then
        match StoredMessages(items[1..])
        case None => None
        case Some(rest) =>
          Some([StoredMessage(item.fields["role"].s, item.fields["content"])] + rest)
      else None
  }

  /** The session a document holds, or None for a document of a shape
      `save_session` never writes. */
  function ReadStored(doc: Json): Option<StoredSession> {
    if doc.JObject? && doc.fields.Keys == {"chat_history", "dataframe_info"}
      && doc.fields["chat_history"].JArray?
    then
      match StoredMessages(doc.fields["chat_history"].items)
      case None => None
      case Some(messages) => Some(StoredSession(messages, doc.fields["dataframe_info"]))
    else None
  }

  /** A message's content as `json.load` builds it: a top-level object is a
      dict of its own. */
  function DecodeContent(j: Json): ContentView {
    if j.JObject? then DictView(map k | k in j.fields :: Decode(j.fields[k]))
    else PlainView(Decode(j))
  }

  function DecodeMessage(m: StoredMessage): MessageView {
    MessageView(m.role, DecodeContent(m.content))
  }

  /** `[pio.from_json(text) for text in content]`; None when any text fails
      to parse, which the surrounding `except` swallows. */
  function ParseAll(items: seq<Value>, fromJson: string -> Option<Figure>): (r: Option<seq<Figure>>)
    requires AllStrings(items)
    ensures r.Some? ==> |r.value| == |items|
  {
    if items == [] then Some([])
    else
      var first := fromJson(items[0].s);
      var rest := ParseAll(items[1..], fromJson);
      if first.Some? && rest.Some? then Some([first.value] + rest.value) else None
  }

  /** Parsing the list succeeds exactly when every text parses, and then
      gives each text's figure in order. */
  lemma {:induction false} ParseAllSpec(items: seq<Value>, fromJson: string -> Option<Figure>)
    requires AllStrings(items)
    ensures var r := ParseAll(items, fromJson);
      && (r.Some? <==> forall i :: 0 <= i < |items| ==> fromJson(items[i].s).Some?)
      && (r.Some? ==> forall i :: 0 <= i < |items| ==> fromJson(items[i].s) == Some(r.value[i]))
  {
    if items != [] {
      ParseAllSpec(items[1..], fromJson);
      var r := ParseAll(items, fromJson);
      if r.Some? {
        forall i | 0 <= i < |items| ensures fromJson(items[i].s) == Some(r.value[i]) {
          if i > 0 {
            assert items[i] == items[1..][i - 1];
          }
        }
      } else if fromJson(items[0].s).Some? {
        var k :| 0 <= k < |items[1..]| && fromJson(items[1..][k].s).None?;
        assert items[k + 1] == items[1..][k];
      }
    }
  }

  /** A plot dict whose data is text. */
  predicate HoldsFigureText(entries: map<string, Value>) {
    IsPlotDict(entries) && "data" in entries && entries["data"].StrV?
  }

  /** What loading does to a content: a plot dict's text is parsed, with a
      failure escaping (None); an all-string list becomes figures when every
      text parses and otherwise stays as it was. */
  function RestoreContent(c: ContentView, fromJson: string -> Option<Figure>): (r: Option<ContentView>)
    ensures r.None? ==> c.DictView? && HoldsFigureText(c.entries)
    ensures r.Some? ==> (r.value.DictView? <==> c.DictView?)
    ensures r.Some? && c.DictView? ==> r.value.entries.Keys == c.entries.Keys
  {
    match c
    case DictView(e) =>
      if HoldsFigureText(e) then
        match fromJson(e["data"].s)
        case None => None
        case Some(fig) => Some(DictView(e["data" := FigureV(fig)]))
      else Some(c)
    case PlainView(v) =>
      if v.ListV? && AllStrings(v.items) then
        match ParseAll(v.items, fromJson)
        case None => Some(c)
        case Some(figs) => Some(PlainView(FigureList(figs)))
      else Some(c)
  }

  /** Loading raises only where a plot dict's text fails to parse, and then
      always; the figure it parses to replaces the text and nothing else.
      A list of texts becomes the figures they parse to, in order, when
      every one parses, and is left exactly as it was when any one fails. */
  lemma RestoreContentSpec(c: ContentView, fromJson: string -> Option<Figure>)
    ensures RestoreContent(c, fromJson).None? <==>
      c.DictView? && HoldsFigureText(c.entries) && fromJson(c.entries["data"].s).None?
    ensures c.DictView? && HoldsFigureText(c.entries) && fromJson(c.entries["data"].s).Some? ==>
      RestoreContent(c, fromJson) == Some(DictView(c.entries["data" := FigureV(fromJson(c.entries["data"].s).value)]))
    ensures c.DictView? && !HoldsFigureText(c.entries) ==> RestoreContent(c, fromJson) == Some(c)
    ensures c.PlainView? && !(c.value.ListV? && AllStrings(c.value.items)) ==> RestoreContent(c, fromJson) == Some(c)
    ensures c.PlainView? && c.value.ListV? && AllStrings(c.value.items) ==>
      var items := c.value.items;
      && ((exists i :: 0 <= i < |items| && fromJson(items[i].s).None?) ==> RestoreContent(c, fromJson) == Some(c))
      && ((forall i :: 0 <= i < |items| ==> fromJson(items[i].s).Some?) ==>
            && RestoreContent(c, fromJson).Some?
            && RestoreContent(c, fromJson).value.PlainView?
            && var r := RestoreContent(c, fromJson).value.value;
            && r.ListV? && |r.items| == |items|
            && forall i :: 0 <= i < |items| ==> r.items[i] == FigureV(fromJson(items[i].s).value))
  {
    if c.PlainView? && c.value.ListV? && AllStrings(c.value.items) {
      ParseAllSpec(c.value.items, fromJson);
    }
  }

  /** A message as loading leaves it, where loading it does not raise. */
  function RestoredView(m: MessageView, fromJson: string -> Option<Figure>): MessageView {
    match RestoreContent(m.content, fromJson)
    case Some(c) => m.(content := c)
    case None => m
  }

  /** The loaded history, or None when parsing a plot's text raised. */
  function RestoreHistory(history: seq<MessageView>, fromJson: string -> Option<Figure>): (r: Option<seq<MessageView>>)
    ensures r.Some? <==> forall i :: 0 <= i < |history| ==> RestoreContent(history[i].content, fromJson).Some?
    ensures r.Some? ==> |r.value| == |history|
    ensures r.Some? ==> forall i :: 0 <= i < |history| ==>
      r.value[i] == history[i].(content := RestoreContent(history[i].content, fromJson).value)
  {
    if forall i :: 0 <= i < |history| ==> RestoreContent(history[i].content, fromJson).Some? then
      Some(seq(|history|, i requires 0 <= i < |history| && RestoreContent(history[i].content, fromJson).Some? =>
        history[i].(content := RestoreContent(history[i].content, fromJson).value)))
    else None
  }

  /** What loading a session gives, in values. */
  datatype SessionView =
    | NoSession
    | LoadFailed
    | UnsupportedFile
    | SessionData(history: seq<MessageView>, dataframeInfo: Json)

  /** `load_session` over the saved files, keyed by path. */
  function LoadSpec(sessionId: string, files: map<string, Json>, fromJson: string -> Option<Figure>): SessionView {
    var path := LoadPath(sessionId);
    if path !in files then NoSession
    else
      match ReadStored(files[path])
      case None => UnsupportedFile
      case Some(stored) =>
        match RestoreHistory(DecodedMessages(stored), fromJson)
        case None => LoadFailed
        case Some(history) => SessionData(history, stored.dataframeInfo)
  }

  /** What `load_session` returns: None for a missing file, an exception
      escaping from `pio.from_json`, a file of another shape, or the loaded
      history of new message objects with the stored dataframe data. */
  datatype LoadResult =
    | NotFound
    | Raised
    | Unsupported
    | Loaded(history: seq<Message>, dataframeInfo: Json)

  /** One step of the reading `json.load` does: a new message object of a
      stored message. */
  method Materialize(m: StoredMessage) returns (msg: Message)
    ensures fresh(msg) && (msg.content.DictContent? ==> fresh(msg.content.dict))
    ensures ViewOf(msg) == DecodeMessage(m)
  {
    var content: Content;
    if m.content.JObject? {
      var d := new ContentDict(map k | k in m.content.fields :: Decode(m.content.fields[k]));
      content := DictContent(d);
    } else {
      content := PlainContent(Decode(m.content));
    }
    msg := new Message(m.role, content);
  }

  /** One step of `load_session`'s loop: restore one message in place, or
      report that parsing a plot's text raised. */
  method RestoreForLoad(msg: Message, fromJson: string -> Option<Figure>) returns (ok: bool)
    modifies msg, if msg.content.DictContent? then {msg.content.dict} else {}
    ensures ok == RestoreContent(old(ViewOf(msg)).content, fromJson).Some?
    ensures ok ==> ViewOf(msg) == RestoredView(old(ViewOf(msg)), fromJson)
    ensures msg.content.DictContent? <==> old(msg.content.DictContent?)
    ensures msg.content.DictContent? ==> msg.content.dict == old(msg.content.dict)
  {
    ok := true;
    match msg.content {
      case DictContent(d) =>
        if HoldsFigureText(d.entries) {
          var fig := fromJson(d.entries["data"].s);
          if fig.None? {
            ok := false;
          } else {
            d.entries := d.entries["data" := FigureV(fig.value)];
          }
        }
      case PlainContent(v) =>
        if v.ListV? && AllStrings(v.items) {
          var figs := ParseAll(v.items, fromJson);
          if figs.Some? {
            msg.content := PlainContent(FigureList(figs.value));
          }
        }
    }
  }

  /** What `json.load` builds of the stored messages: new, separate objects. */
  method MaterializeAll(messages: seq<StoredMessage>) returns (history: seq<Message>)
    ensures |history| == |messages|
    ensures forall j :: 0 <= j < |history| ==>
      fresh(history[j]) && (history[j].content.DictContent? ==> fresh(history[j].content.dict))
    ensures forall j :: 0 <= j < |history| ==> ViewOf(history[j]) == DecodeMessage(messages[j])
    ensures Separate(history)
  {
    history := [];
    var i := 0;
    while i < |messages|
      invariant 0 <= i <= |messages| && |history| == i
      invariant forall j :: 0 <= j < i ==>
        fresh(history[j]) && (history[j].content.DictContent? ==> fresh(history[j].content.dict))
      invariant forall j :: 0 <= j < i ==> ViewOf(history[j]) == DecodeMessage(messages[j])
      invariant Separate(history)
    {
      var msg := Materialize(messages[i]);
      history := history + [msg];
      i := i + 1;
    }
  }

  /** The loop of `load_session`: restores each message in place, stopping
      where parsing a plot's text raises. */
  method RestoreAll(history: seq<Message>, fromJson: string -> Option<Figure>) returns (ok: bool)
    requires Separate(history)
    modifies set j | 0 <= j < |history| :: history[j]
    modifies Dicts(history)
    ensures ok == RestoreHistory(old(Views(history)), fromJson).Some?
    ensures ok ==> Views(history) == RestoreHistory(old(Views(history)), fromJson).value
  {
    ghost var before := Views(history);
    var i := 0;
    while i < |history|
      invariant 0 <= i <= |history|
      invariant forall j :: 0 <= j < |history| ==> history[j].content.DictContent? == old(history[j].content.DictContent?)
      invariant forall j :: 0 <= j < |history| && history[j].content.DictContent? ==>
        history[j].content.dict == old(history[j].content.dict)
      invariant forall j :: 0 <= j < i ==> RestoreContent(before[j].content, fromJson).Some?
      invariant forall j :: 0 <= j < i ==> ViewOf(history[j]) == RestoredView(before[j], fromJson)
      invariant forall j :: i <= j < |history| ==> ViewOf(history[j]) == before[j]
    {
      assert history[i].content.DictContent? ==> history[i].content.dict in old(Dicts(history));
      assert ViewOf(history[i]) == before[i];
      label Step:
      ok := RestoreForLoad(history[i], fromJson);
      if !ok {
        return;
      }
      forall j | 0 <= j < |history| && j != i
        ensures history[j].content == old@Step(history[j].content)
        ensures ViewOf(history[j]) == old@Step(ViewOf(history[j]))
      {
        assert history[j] != history[i];
      }
      i := i + 1;
    }
    ok := true;
    forall j | 0 <= j < |history|
      ensures Views(history)[j] == RestoreHistory(before, fromJson).value[j]
    {
      assert Views(history)[j] == ViewOf(history[j]);
    }
  }

  /** `load_session`: `files` maps each existing path to its parsed
      contents and `fromJson` is `pio.from_json`, None where it raises. */
  method LoadSession(sessionId: string, files: map<string, Json>, fromJson: string -> Option<Figure>)
    returns (r: LoadResult)
    ensures r.NotFound? <==> LoadSpec(sessionId, files, fromJson).NoSession?
    ensures r.Unsupported? <==> LoadSpec(sessionId, files, fromJson).UnsupportedFile?
    ensures r.Raised? <==> LoadSpec(sessionId, files, fromJson).LoadFailed?
    ensures r.Loaded? ==>
      && (forall i :: 0 <= i < |r.history| ==> fresh(r.history[i]))
      && LoadSpec(sessionId, files, fromJson) == SessionData(Views(r.history), r.dataframeInfo)
  {
    var path := LoadPath(sessionId);
    if path !in files {
      return NotFound;
    }
    var stored := ReadStored(files[path]);
    if stored.None? {
      return Unsupported;
    }
    var history := MaterializeAll(stored.value.messages);
    assert Views(history) == DecodedMessages(stored.value);
    var ok := RestoreAll(history, fromJson);
    if !ok {
      return Raised;
    }
    r := Loaded(history, stored.value.dataframeInfo);
  }

  // ---------------------------------------------------------------------
  // Saving then loading
  // ---------------------------------------------------------------------

  predicate ContentJsonSafe(c: ContentView) {
    match c
    case PlainView(v) => JsonSafe(v)
    case DictView(e) => JsonSafe(DictV(e))
  }

  /** Content that loading the saved file gives back as it was: figures only
      as a plot dict's data or as the items of a figure list, and nothing
      that loading would take for a figure's text. */
  predicate Restorable(c: ContentView) {
    match c
    case PlainView(v) => IsFigureList(v) || (JsonSafe(v) && !(v.ListV? && AllStrings(v.items)))
    case DictView(e) =>
      && (forall k | k in e && k != "data" :: JsonSafe(e[k]))
      && ("data" in e ==>
            if IsPlotDict(e) then e["data"].FigureV? || (JsonSafe(e["data"]) && !e["data"].StrV?)
            else JsonSafe(e["data"]))
  }

  /** A content that holds no figure survives being dumped and loaded. */
  lemma ContentJsonRoundTrip(c: ContentView)
    requires ContentJsonSafe(c)
    ensures EncodeContent(c).Some? && DecodeContent(EncodeContent(c).value) == c
  {
    match c
    case PlainView(v) =>
      JsonRoundTrip(v);
    case DictView(e) =>
      JsonRoundTrip(DictV(e));
  }

  /** Under a codec whose parse undoes its serialisation, loading gives back what
      saving converted. */
  lemma RestoreAfterSerialize(c: ContentView, toJson: Figure -> string, fromJson: string -> Option<Figure>)
    requires forall f :: fromJson(toJson(f)) == Some(f)
    requires Restorable(c)
    ensures ContentJsonSafe(SerializeContent(c, toJson))
    ensures RestoreContent(SerializeContent(c, toJson), fromJson) == Some(c)
  {
    match c
    case PlainView(v) =>
      if IsFigureList(v) {
        var texts := FigureTexts(v.items, toJson);
        assert forall i :: 0 <= i < |v.items| ==> texts.items[i] == StrV(toJson(v.items[i].fig));
        assert AllStrings(texts.items);
        ParseAllSpec(texts.items, fromJson);
        var figs := ParseAll(texts.items, fromJson).value;
        assert FigureList(figs).items == v.items;
      }
    case DictView(e) =>
      if HoldsFigure(e) {
        var fig := e["data"].fig;
        var saved := e["data" := StrV(toJson(fig))];
        assert saved["type"] == e["type"];
        assert HoldsFigureText(saved);
        assert saved["data" := FigureV(fig)] == e;
      }
  }

  /** Encoding a history whose contents all encode succeeds, message by message. */
  lemma {:induction false} EncodeHistorySpec(history: seq<MessageView>)
    requires forall i :: 0 <= i < |history| ==> EncodeContent(history[i].content).Some?
    ensures EncodeHistory(history).Some?
    ensures forall i :: 0 <= i < |history| ==>
      EncodeHistory(history).value[i] ==
        EncodeMessage(history[i].role, EncodeContent(history[i].content).value)
  {
    if history != [] {
      EncodeHistorySpec(history[1..]);
      forall i | 0 < i < |history| ensures history[1..][i - 1] == history[i] { }
    }
  }

  /** Reading encoded messages back gives their roles and contents. */
  lemma {:induction false} StoredMessagesOfEncoded(items: seq<Json>, roles: seq<string>, contents: seq<Json>)
    requires |items| == |roles| == |contents|
    requires forall i :: 0 <= i < |items| ==> items[i] == EncodeMessage(roles[i], contents[i])
    ensures StoredMessages(items).Some?
    ensures forall i :: 0 <= i < |items| ==>
      StoredMessages(items).value[i] == StoredMessage(roles[i], contents[i])
  {
    if items != [] {
      assert items[0].fields.Keys == {"role", "content"};
      StoredMessagesOfEncoded(items[1..], roles[1..], contents[1..]);
    }
  }

  /** The messages of a stored session, as `json.load` builds them. */
  function DecodedMessages(stored: StoredSession): (r: seq<MessageView>)
    ensures |r| == |stored.messages|
  {
    seq(|stored.messages|, i requires 0 <= i < |stored.messages| => DecodeMessage(stored.messages[i]))
  }

  /** The document saved for a history of restorable messages reads back as
      a session whose messages are the saved ones. */
  lemma SavedDocumentReads(history: seq<MessageView>, dfInfo: Json, toJson: Figure -> string)
    requires forall i :: 0 <= i < |history| ==> ContentJsonSafe(SerializeContent(history[i].content, toJson))
    ensures SessionDocument(SerializeHistory(history, toJson), dfInfo).Some?
    ensures var stored := ReadStored(SessionDocument(SerializeHistory(history, toJson), dfInfo).value);
      && stored.Some?
      && stored.value.dataframeInfo == dfInfo
      && DecodedMessages(stored.value) == SerializeHistory(history, toJson)
  {
    var saved := SerializeHistory(history, toJson);
    forall i | 0 <= i < |history|
      ensures EncodeContent(saved[i].content).Some?
      ensures DecodeContent(EncodeContent(saved[i].content).value) == saved[i].content
    {
      ContentJsonRoundTrip(saved[i].content);
    }
    EncodeHistorySpec(saved);
    var items := EncodeHistory(saved).value;
    var roles := seq(|saved|, i requires 0 <= i < |saved| => saved[i].role);
    var contents := seq(|saved|, i requires 0 <= i < |saved| => EncodeContent(saved[i].content).value);
    StoredMessagesOfEncoded(items, roles, contents);
    var doc := SessionDocument(saved, dfInfo).value;
    assert doc.fields.Keys == {"chat_history", "dataframe_info"};
    assert DecodedMessages(ReadStored(doc).value) == saved;
  }

  /** Round trip: under a codec whose parse undoes its serialisation, the file saved
      for a history of restorable messages loads, under the id with ".json"
      appended, as that same history and dataframe data; under the bare id
      nothing is found. */
  lemma SaveThenLoad(sessionId: string, history: seq<MessageView>, dfInfo: Json,
                     toJson: Figure -> string, fromJson: string -> Option<Figure>)
    requires forall f :: fromJson(toJson(f)) == Some(f)
    requires forall i :: 0 <= i < |history| ==> Restorable(history[i].content)
    ensures SessionDocument(SerializeHistory(history, toJson), dfInfo).Some?
    ensures var files := map[SavePath(sessionId) := SessionDocument(SerializeHistory(history, toJson), dfInfo).value];
      && LoadSpec(sessionId + JSON_SUFFIX, files, fromJson) == SessionData(history, dfInfo)
      && LoadSpec(sessionId, files, fromJson) == NoSession
  {
    var saved := SerializeHistory(history, toJson);
    forall i | 0 <= i < |history|
      ensures ContentJsonSafe(saved[i].content)
      ensures RestoreContent(saved[i].content, fromJson) == Some(history[i].content)
    {
      RestoreAfterSerialize(history[i].content, toJson, fromJson);
    }
    SavedDocumentReads(history, dfInfo, toJson);
    var stored := ReadStored(SessionDocument(saved, dfInfo).value).value;
    assert RestoreHistory(DecodedMessages(stored), fromJson).value == history;
    SaveAndLoadPaths(sessionId, sessionId);
  }

  // ---------------------------------------------------------------------
  // export_chat_to_html
  // ---------------------------------------------------------------------

  /** The fixed start of the export: a newline and indentation, the page
      head with its style sheet, and the page title. */
  const HTML_HEADER: string :=
    "\n    <html><head><title>DataSense AI Chat Export</title><style>\n" +
    "    body { font-family: Arial, sans-serif; background-color: #f8f9fa; color: #212529; padding: 20px; }\n" +
    "    .message-container { margin-bottom: 20px; padding: 15px; border-radius: 12px; box-shadow: 0 4px 6px rgba(0,0,0,0.05); }\n" +
    "    .user { background-color: #e9d5ff; border-left: 5px solid #8A2BE2; }\n" +
    "    .assistant { background-color: #ffffff; border-left: 5px solid #5A5A5A; }\n" +
    "    h3 { color: #8A2BE2; margin-top: 0; }\n" +
    "    p { margin-bottom: 0; }\n" +
    "    </style></head><body><h1>DataSense AI Chat Export</h1>\n    "

  const HTML_FOOTER := "</body></html>"
  const PLOT_PLACEHOLDER := "<p><em>[Plot was generated here.]</em></p>"
  const DASHBOARD_PLACEHOLDER := "<p><em>[Dashboard was generated here.]</em></p>"

  /** A message's body: a placeholder for a plot dict or any list, otherwise
      `str` of the content in a paragraph, not escaped.  `show` stands for
      `str` of values the model does not render itself. */
  function MessageBody(c: ContentView, show: Value -> string): (r: string)
    ensures c.DictView? && IsPlotDict(c.entries) ==> r == PLOT_PLACEHOLDER
    ensures c.PlainView? && c.value.ListV? ==> r == DASHBOARD_PLACEHOLDER
    ensures c.PlainView? && c.value.StrV? ==> r == "<p>" + c.value.s + "</p>"
  {
    match c
    case DictView(e) =>
      if IsPlotDict(e) then PLOT_PLACEHOLDER else "<p>" + Str(DictV(e), show) + "</p>"
    case PlainView(v) =>
      if v.ListV? then DASHBOARD_PLACEHOLDER else "<p>" + Str(v, show) + "</p>"
  }

  /** `f'<div class="message-container {msg["role"]}">'`: the raw role as a class. */
  function Opening(role: string): string {
    "<div class=\"message-container " + role + "\">"
  }

  /** `f'<h3>{role}</h3>'` with the capitalised role. */
  function Heading(role: string): string {
    "<h3>" + Capitalize(role) + "</h3>"
  }

  /** A message's block: its opening tag, heading and body, then the closing tag. */
  function Block(m: MessageView, show: Value -> string): string {
    Opening(m.role) + Heading(m.role) + MessageBody(m.content, show) + "</div>"
  }

  /** A block opens with the container tag carrying the raw role and the
      capitalised heading, and closes its `div`. */
  lemma BlockShape(m: MessageView, show: Value -> string)
    ensures Opening(m.role) + Heading(m.role) <= Block(m, show)
    ensures |Block(m, show)| >= 6 && Block(m, show)[|Block(m, show)| - 6..] == "</div>"
  {
    var head := Opening(m.role) + Heading(m.role);
    var b := Block(m, show);
    assert b == head + (MessageBody(m.content, show) + "</div>");
    assert b[|b| - 6..] == "</div>";
  }

  /** Regrouping a concatenation, as a separate step: the export proofs
      stay within their resource limit only when this fact is not
      rederived in their own context. */
  lemma AppendAssoc(a: string, b: string, c: string)
    ensures a + b + c == a + (b + c)
  {
  }

  /** The blocks of the messages, in order. */
  function Blocks(history: seq<MessageView>, show: Value -> string): string {
    if history == [] then ""
    else Blocks(history[..|history| - 1], show) + Block(history[|history| - 1], show)
  }

  /** The exported page, before its UTF-8 encoding. */
  function HtmlDocument(history: seq<MessageView>, show: Value -> string): string {
    HTML_HEADER + Blocks(history, show) + HTML_FOOTER
  }

  /** Adding a message at the end adds its block at the end. */
  lemma BlocksSnoc(history: seq<MessageView>, i: int, show: Value -> string)
    requires 0 <= i < |history|
    ensures Blocks(history[..i + 1], show) == Blocks(history[..i], show) + Block(history[i], show)
  {
    assert history[..i + 1][..i] == history[..i];
  }

  /** The blocks of two runs of messages are the blocks of the first run
      followed by those of the second. */
  lemma {:induction false} BlocksAppend(a: seq<MessageView>, b: seq<MessageView>, show: Value -> string)
    ensures Blocks(a + b, show) == Blocks(a, show) + Blocks(b, show)
    decreases |b|
  {
    if b == [] {
      assert a + b == a;
    } else {
      var last := |b| - 1;
      var x := Block(b[last], show);
      assert (a + b)[..|a + b| - 1] == a + b[..last];
      assert (a + b)[|a + b| - 1] == b[last];
      assert Blocks(a + b, show) == Blocks(a + b[..last], show) + x;
      BlocksAppend(a, b[..last], show);
      assert Blocks(b, show) == Blocks(b[..last], show) + x;
      AppendAssoc(Blocks(a, show), Blocks(b[..last], show), x);
    }
  }

  /** Each message's block sits between the header with the blocks of the
      messages before it and the blocks of those after it with the footer. */
  lemma ExportLayout(history: seq<MessageView>, j: int, show: Value -> string)
    requires 0 <= j < |history|
    ensures HtmlDocument(history, show) ==
      HTML_HEADER +
      (Blocks(history[..j], show) + Block(history[j], show) + Blocks(history[j + 1..], show)) +
      HTML_FOOTER
  {
    assert history == history[..j] + [history[j]] + history[j + 1..];
    BlocksAppend(history[..j] + [history[j]], history[j + 1..], show);
    BlocksAppend(history[..j], [history[j]], show);
    assert Blocks([history[j]], show) == Block(history[j], show) by {
      assert [history[j]][..0] == [];
    }
  }

  /** The loop of `export_chat_to_html`: appends each message's block, in
      order, building the opening tag, the heading and the body in turn. */
  method AppendBlocks(start: string, views: seq<MessageView>, show: Value -> string) returns (html: string)
    ensures html == start + Blocks(views, show)
  {
    html := start;
    var i := 0;
    while i < |views|
      invariant 0 <= i <= |views|
      invariant html == start + Blocks(views[..i], show)
    {
      ghost var done := html;
      var msg := views[i];
      var opening := Opening(msg.role);
      var heading := Heading(msg.role);
      html := html + opening;
      html := html + heading;
      var body: string;
      match msg.content {
        case DictView(e) =>
          if IsPlotDict(e) {
            body := PLOT_PLACEHOLDER;
          } else {
            body := "<p>" + Str(DictV(e), show) + "</p>";
          }
        case PlainView(v) =>
          if v.ListV? {
            body := DASHBOARD_PLACEHOLDER;
          } else {
            body := "<p>" + Str(v, show) + "</p>";
          }
      }
      html := html + body;
      html := html + "</div>";
      AppendAssoc(done, opening, heading);
      AppendAssoc(done, opening + heading, body);
      AppendAssoc(done, opening + heading + body, "</div>");
      BlocksSnoc(views, i, show);
      AppendAssoc(start, Blocks(views[..i], show), Block(msg, show));
      i := i + 1;
    }
    assert views[..|views|] == views;
  }

  /** `export_chat_to_html`, up to the final encoding to bytes. */
  method ExportChatToHtml(chatHistory: seq<Message>, show: Value -> string) returns (html: string)
    ensures html == HtmlDocument(Views(chatHistory), show)
  {
    var views := Views(chatHistory);
    html := HTML_HEADER;
    html := AppendBlocks(html, views, show);
    assert Views(chatHistory) == views;
    html := html + HTML_FOOTER;
  }
}

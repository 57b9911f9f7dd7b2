/** The stock groups (`src/config/stockGroups.js`): four named ticker lists
    read from the tabs of a spreadsheet exported as CSV, each falling back to
    a built-in list when its tab yields no ticker, and kept in a module-level
    cache that is reused for five minutes.

    The parsing pipeline is pure and is modelled as functions; the module's
    two mutable variables (`STOCK_GROUPS_CACHE`, `CACHE_TIMESTAMP`) become the
    fields of a class whose load method updates them. */
module StockGroups {
  import opened Common
  import opened Market

  // ---------------------------------------------------------------------------
  // Splitting the CSV text into lines (`csvText.split('\n')`).

  /** The position of the first newline of s, or |s| when there is none. */
  function NewlineIndex(s: string): (i: nat)
    ensures i <= |s|
    ensures i < |s| ==> s[i] == '\n'
    ensures forall k :: 0 <= k < i ==> s[k] != '\n'
  {
    if s == [] || s[0] == '\n' then 0 else 1 + NewlineIndex(s[1..])
  }

  /** `s.split('\n')`: the pieces between newlines; the empty string gives one
      empty piece and a trailing newline gives an empty last piece. */
  function SplitLines(s: string): seq<string>
    decreases |s|
  {
    var i := NewlineIndex(s);
    if i == |s| then [s] else [s[..i]] + SplitLines(s[i + 1..])
  }

  /** `parts.join('\n')`. */
  function JoinLines(parts: seq<string>): string {
    if parts == [] then []
    else if |parts| == 1 then parts[0]
    else parts[0] + "\n" + JoinLines(parts[1..])
  }

  /** There is always at least one piece, and no piece holds a newline. */
  lemma {:induction false} SplitLinesPieces(s: string)
    ensures |SplitLines(s)| >= 1
    ensures forall k :: 0 <= k < |SplitLines(s)| ==> '\n' !in SplitLines(s)[k]
    decreases |s|
  {
    var i := NewlineIndex(s);
    if i < |s| {
      var rest := SplitLines(s[i + 1..]);
      SplitLinesPieces(s[i + 1..]);
      assert SplitLines(s) == [s[..i]] + rest;
      forall k | 0 <= k < |SplitLines(s)|
        ensures '\n' !in SplitLines(s)[k]
      {
        if k == 0 {
          assert forall c :: c in s[..i] ==> c != '\n';
        } else {
          assert SplitLines(s)[k] == rest[k - 1];
        }
      }
    } else {
      assert forall c :: c in s ==> c != '\n';
    }
  }

  /** Splitting loses nothing: joining the pieces with newlines gives back the text. */
  lemma {:induction false} SplitLinesJoin(s: string)
    ensures JoinLines(SplitLines(s)) == s
    decreases |s|
  {
    var i := NewlineIndex(s);
    if i < |s| {
      SplitLinesJoin(s[i + 1..]);
      SplitLinesPieces(s[i + 1..]);
      assert s == s[..i] + "\n" + s[i + 1..];
    }
  }

  // ---------------------------------------------------------------------------
  // `line.trim()`.

  /** The characters `String.prototype.trim` removes: the ECMAScript WhiteSpace
      set (tab, vertical tab, form feed, space, no-break space, byte order mark
      and the other Unicode space separators) and the four LineTerminators. */
  predicate IsTrimmable(c: char) {
    c == '\t' || c == '\U{000B}' || c == '\U{000C}' || c == ' ' || c == '\U{00A0}' || c == '\U{FEFF}'
    || c == '\U{1680}' || ('\U{2000}' <= c <= '\U{200A}') || c == '\U{202F}' || c == '\U{205F}' || c == '\U{3000}'
    || c == '\n' || c == '\r' || c == '\U{2028}' || c == '\U{2029}'
  }

  function TrimStart(s: string): string {
    if s != [] && IsTrimmable(s[0]) then TrimStart(s[1..]) else s
  }

  function TrimEnd(s: string): string {
    if s != [] && IsTrimmable(s[|s| - 1]) then TrimEnd(s[..|s| - 1]) else s
  }

  function Trim(s: string): string {
    TrimEnd(TrimStart(s))
  }

  /** How many characters TrimStart drops: a run of trimmable characters,
      stopping at the first one that is not. */
  function LeadingTrimmed(s: string): (n: nat)
    ensures n <= |s| && TrimStart(s) == s[n..]
    ensures forall k :: 0 <= k < n ==> IsTrimmable(s[k])
    ensures n < |s| ==> !IsTrimmable(s[n])
  {
    if s != [] && IsTrimmable(s[0]) then
      var m := LeadingTrimmed(s[1..]);
      assert s[1..][m..] == s[m + 1..];
      assert forall k :: 0 < k < m + 1 ==> s[k] == s[1..][k - 1];
      1 + m
    else 0
  }

  /** How many characters TrimEnd keeps: everything up to a final run of
      trimmable characters, ending on one that is not. */
  function TrailingKept(s: string): (n: nat)
    ensures n <= |s| && TrimEnd(s) == s[..n]
    ensures forall k :: n <= k < |s| ==> IsTrimmable(s[k])
    ensures n > 0 ==> !IsTrimmable(s[n - 1])
  {
    if s != [] && IsTrimmable(s[|s| - 1]) then
      var init := s[..|s| - 1];
      var m := TrailingKept(init);
      assert init[..m] == s[..m];
      assert forall k :: m <= k < |s| - 1 ==> s[k] == init[k];
      m
    else |s|
  }

  /** `trim()` keeps a contiguous run of the line and drops only trimmable
      characters around it. */
  lemma TrimSlice(s: string)
    ensures exists i, j :: 0 <= i <= j <= |s| && Trim(s) == s[i..j]
                           && (forall k :: 0 <= k < i ==> IsTrimmable(s[k]))
                           && (forall k :: j <= k < |s| ==> IsTrimmable(s[k]))
  {
    var i := LeadingTrimmed(s);
    var t := s[i..];
    var j := TrailingKept(t);
    assert t[..j] == s[i..i + j];
    assert forall k :: i + j <= k < |s| ==> s[k] == t[k - i];
  }

  /** After `trim()` neither end of the line is trimmable. */
  lemma TrimEnds(s: string)
    ensures Trim(s) != [] ==> !IsTrimmable(Trim(s)[0]) && !IsTrimmable(Trim(s)[|Trim(s)| - 1])
  {
    var i := LeadingTrimmed(s);
    var t := s[i..];
    var j := TrailingKept(t);
    if Trim(s) != [] {
      assert Trim(s)[0] == t[0] && Trim(s)[|Trim(s)| - 1] == t[j - 1];
    }
  }

  /** A string that has nothing to trim is its own trim. */
  lemma TrimUntrimmable(s: string)
    requires s != [] && !IsTrimmable(s[0]) && !IsTrimmable(s[|s| - 1])
    ensures Trim(s) == s
  {
  }

  // ---------------------------------------------------------------------------
  // Filtering and upper-casing.

  /** `/^[A-Z]+$/`: one or more capital letters A-Z and nothing else. */
  predicate IsTickerLine(s: string) {
    |s| > 0 && forall k :: 0 <= k < |s| ==> 'A' <= s[k] <= 'Z'
  }

  /** `toUpperCase` on the ASCII letters; other characters are returned as they are. */
  function UpperChar(c: char): (r: char)
    ensures 'a' <= c <= 'z' ==> 'A' <= r <= 'Z' && r as int == c as int - 32
    ensures !('a' <= c <= 'z') ==> r == c
  {
    if 'a' <= c <= 'z' then (c as int - 'a' as int + 'A' as int) as char else c
  }

  function ToUpper(s: string): string {
    if s == [] then [] else [UpperChar(s[0])] + ToUpper(s[1..])
  }

  function TrimEach(lines: seq<string>): seq<string> {
    if lines == [] then [] else [Trim(lines[0])] + TrimEach(lines[1..])
  }

  /** `.filter(line => line.length > 0)`. */
  function NonEmptyLines(lines: seq<string>): seq<string> {
    if lines == [] then []
    else if |lines[0]| > 0 then [lines[0]] + NonEmptyLines(lines[1..])
    else NonEmptyLines(lines[1..])
  }

  /** `.filter(line => line.match(/^[A-Z]+$/))`. */
  function TickerLines(lines: seq<string>): seq<string> {
    if lines == [] then []
    else if IsTickerLine(lines[0]) then [lines[0]] + TickerLines(lines[1..])
    else TickerLines(lines[1..])
  }

  function UpperEach(lines: seq<string>): seq<string> {
    if lines == [] then [] else [ToUpper(lines[0])] + UpperEach(lines[1..])
  }

  /** The ticker list of one sheet tab's CSV text (the parse in `fetchSheetAsCSV`). */
  function ParseTickers(csvText: string): seq<Symbol> {
    UpperEach(TickerLines(NonEmptyLines(TrimEach(SplitLines(csvText)))))
  }

  /** The reference reading of the pipeline: the trimmed form of every line
      whose trimmed form is a ticker, in line order. */
  function KeptLines(lines: seq<string>): seq<string> {
    if lines == [] then []
    else if IsTickerLine(Trim(lines[0])) then [Trim(lines[0])] + KeptLines(lines[1..])
    else KeptLines(lines[1..])
  }

  /** Upper-casing a string of capital letters changes nothing. */
  lemma {:induction false} ToUpperTicker(s: string)
    requires forall k :: 0 <= k < |s| ==> 'A' <= s[k] <= 'Z'
    ensures ToUpper(s) == s
  {
    if s != [] {
      ToUpperTicker(s[1..]);
    }
  }

  /** The empty-line filter is subsumed by the ticker filter. */
  lemma {:induction false} NonEmptyRedundant(lines: seq<string>)
    ensures TickerLines(NonEmptyLines(lines)) == TickerLines(lines)
  {
    if lines != [] {
      NonEmptyRedundant(lines[1..]);
    }
  }

  /** Upper-casing lines that are all tickers changes nothing. */
  lemma {:induction false} UpperEachTickers(lines: seq<string>)
    requires forall k :: 0 <= k < |lines| ==> IsTickerLine(lines[k])
    ensures UpperEach(lines) == lines
  {
    if lines != [] {
      ToUpperTicker(lines[0]);
      assert forall k :: 0 <= k < |lines[1..]| ==> IsTickerLine(lines[1..][k]) by {
        forall k | 0 <= k < |lines[1..]|
          ensures IsTickerLine(lines[1..][k])
        {
          assert lines[1..][k] == lines[k + 1];
        }
      }
      UpperEachTickers(lines[1..]);
    }
  }

  /** The ticker filter keeps only tickers. */
  lemma {:induction false} TickerLinesAreTickers(lines: seq<string>)
    ensures forall k :: 0 <= k < |TickerLines(lines)| ==> IsTickerLine(TickerLines(lines)[k])
  {
    if lines != [] {
      TickerLinesAreTickers(lines[1..]);
      var rest := TickerLines(lines[1..]);
      if IsTickerLine(lines[0]) {
        assert forall k :: 0 < k < |TickerLines(lines)| ==> TickerLines(lines)[k] == rest[k - 1];
      }
    }
  }

  /** Trimming then filtering is the reference reading. */
  lemma {:induction false} TickerLinesOfTrimmed(lines: seq<string>)
    ensures TickerLines(TrimEach(lines)) == KeptLines(lines)
  {
    if lines != [] {
      TickerLinesOfTrimmed(lines[1..]);
    }
  }

  /** A line is kept exactly when its trimmed form is a ticker; what is kept is
      that trimmed form, in the order of the lines, and every parsed ticker is
      a non-empty run of the letters A-Z. */
  lemma ParseTickersSpec(csvText: string)
    ensures ParseTickers(csvText) == KeptLines(SplitLines(csvText))
    ensures forall k :: 0 <= k < |ParseTickers(csvText)| ==> IsTickerLine(ParseTickers(csvText)[k])
  {
    var lines := SplitLines(csvText);
    NonEmptyRedundant(TrimEach(lines));
    TickerLinesOfTrimmed(lines);
    TickerLinesAreTickers(TrimEach(lines));
    UpperEachTickers(TickerLines(TrimEach(lines)));
  }

  /** Membership in the reference reading: t is kept iff some line trims to t
      and t is a ticker. */
  lemma {:induction false} KeptLinesMembers(lines: seq<string>, t: string)
    ensures t in KeptLines(lines) <==> IsTickerLine(t) && exists k :: 0 <= k < |lines| && Trim(lines[k]) == t
  {
    if lines != [] {
      KeptLinesMembers(lines[1..], t);
      if IsTickerLine(t) && Trim(lines[0]) != t && (exists k :: 0 <= k < |lines| && Trim(lines[k]) == t) {
        var k :| 0 <= k < |lines| && Trim(lines[k]) == t;
        assert lines[1..][k - 1] == lines[k];
      }
      if exists k :: 0 <= k < |lines[1..]| && Trim(lines[1..][k]) == t {
        var k :| 0 <= k < |lines[1..]| && Trim(lines[1..][k]) == t;
        assert lines[k + 1] == lines[1..][k];
      }
    }
  }

  /** The relative order of the lines is preserved: two kept tickers appear in
      the result in the order of their lines. */
  lemma {:induction false} KeptLinesOrder(lines: seq<string>, a: nat, b: nat)
    requires a < b < |lines| && IsTickerLine(Trim(lines[a])) && IsTickerLine(Trim(lines[b]))
    ensures exists x, y :: 0 <= x < y < |KeptLines(lines)|
                           && KeptLines(lines)[x] == Trim(lines[a]) && KeptLines(lines)[y] == Trim(lines[b])
  {
    var rest := KeptLines(lines[1..]);
    assert lines[1..][b - 1] == lines[b];
    if a == 0 {
      KeptLinesMembers(lines[1..], Trim(lines[b]));
      var y :| 0 <= y < |rest| && rest[y] == Trim(lines[b]);
      assert KeptLines(lines)[0] == Trim(lines[a]) && KeptLines(lines)[y + 1] == rest[y];
    } else {
      assert lines[1..][a - 1] == lines[a];
      KeptLinesOrder(lines[1..], a - 1, b - 1);
      var x, y :| 0 <= x < y < |rest| && rest[x] == Trim(lines[a]) && rest[y] == Trim(lines[b]);
      if IsTickerLine(Trim(lines[0])) {
        assert KeptLines(lines)[x + 1] == rest[x] && KeptLines(lines)[y + 1] == rest[y];
      } else {
        assert KeptLines(lines) == rest;
      }
    }
  }

  // ---------------------------------------------------------------------------
  // One tab's fetch (`fetchSheetAsCSV`).

  /** What fetching a tab's CSV export ends in: its text, or a failure of any
      kind (a network error, or a non-ok status from the proxy after the direct
      URL failed). */
  datatype SheetResult = CsvText(text: string) | FetchFailed

  /** A failed fetch yields the empty list (the catch of `fetchSheetAsCSV`). */
  function FetchSheetTickers(r: SheetResult): (tickers: seq<Symbol>)
    ensures r.FetchFailed? ==> tickers == []
    ensures r.CsvText? ==> tickers == KeptLines(SplitLines(r.text))
  {
    match r
    case CsvText(text) =>
      ParseTickersSpec(text);
      ParseTickers(text)
    case FetchFailed => []
  }

  // ---------------------------------------------------------------------------
  // Groups.

  datatype GroupId = TechLarge | TechSmall | Biotech | Momentum

  /** The order of `SHEET_GIDS` and `STOCK_GROUP_METADATA`. */
  const GroupOrder: seq<GroupId> := [TechLarge, TechSmall, Biotech, Momentum]

  /** The property name of a group. */
  function Key(g: GroupId): string {
    match g
    case TechLarge => "techLarge"
    case TechSmall => "techSmall"
    case Biotech => "biotech"
    case Momentum => "momentum"
  }

  /** The spreadsheet tab of each group. */
  function SheetGid(g: GroupId): string {
    match g
    case TechLarge => "0"
    case TechSmall => "28772249"
    case Biotech => "1870652281"
    case Momentum => "1903963547"
  }

  /** A group as the rest of the application sees it: metadata plus tickers. */
  datatype Group = Group(id: string, name: string, description: string, tickers: seq<Symbol>)

  /** `{...STOCK_GROUP_METADATA[g], tickers}`. */
  function WithTickers(g: GroupId, tickers: seq<Symbol>): (r: Group)
    ensures r.id == Key(g) && r.tickers == tickers
  {
    match g
    case TechLarge => Group("techLarge", "Tech Large Caps", "Large cap technology companies", tickers)
    case TechSmall => Group("techSmall", "Tech Small Caps", "Small cap technology companies with growth potential", tickers)
    case Biotech => Group("biotech", "Biotech Stocks", "Biotechnology and pharmaceutical companies", tickers)
    case Momentum => Group("momentum", "Momentum Stocks", "High momentum stocks with breakout potential", tickers)
  }

  /** `FALLBACK_DATA`. */
  function Fallback(g: GroupId): seq<Symbol> {
    match g
    case TechLarge => ["NVDA", "AAPL", "TSLA", "META", "GOOGL", "MSFT"]
    case TechSmall => ["PLTR", "NVTS", "BBAI"]
    case Biotech => ["BIIB", "ILMN", "AMGN"]
    case Momentum => ["EYE", "CRWV"]
  }

  /** Every fallback list is non-empty and made of tickers. */
  lemma FallbackSpec(g: GroupId)
    ensures |Fallback(g)| > 0
    ensures forall k :: 0 <= k < |Fallback(g)| ==> IsTickerLine(Fallback(g)[k])
  {
    var f := Fallback(g);
    forall k | 0 <= k < |f|
      ensures IsTickerLine(f[k])
    {
      var t := f[k];
      assert forall c :: 0 <= c < |t| ==> 'A' <= t[c] <= 'Z';
    }
  }

  /** The group built from one tab's tickers (the `forEach` of `loadStockGroups`). */
  function MakeGroup(g: GroupId, tickers: seq<Symbol>): Group {
    WithTickers(g, if |tickers| > 0 then tickers else Fallback(g))
  }

  /** A non-empty list is used as it is; an empty one is replaced by the
      group's fallback; either way the group is never empty. */
  lemma MakeGroupSpec(g: GroupId, tickers: seq<Symbol>)
    ensures MakeGroup(g, tickers).id == Key(g)
    ensures |tickers| > 0 ==> MakeGroup(g, tickers).tickers == tickers
    ensures |tickers| == 0 ==> MakeGroup(g, tickers).tickers == Fallback(g)
    ensures |MakeGroup(g, tickers).tickers| > 0
  {
    FallbackSpec(g);
  }

  /** `getGroupIds()`: the metadata keys, in declaration order. */
  function GetGroupIds(): (r: seq<string>)
    ensures |r| == |GroupOrder|
    ensures forall k :: 0 <= k < |r| ==> r[k] == Key(GroupOrder[k])
  {
    seq(|GroupOrder|, k requires 0 <= k < |GroupOrder| => Key(GroupOrder[k]))
  }

  /** Where a group stands in the declaration order. */
  function GroupIndex(g: GroupId): (k: nat)
    ensures k < |GroupOrder| && GroupOrder[k] == g
  {
    match g
    case TechLarge => 0
    case TechSmall => 1
    case Biotech => 2
    case Momentum => 3
  }

  /** Two groups never share a property name. */
  lemma KeyInjective(g: GroupId, h: GroupId)
    requires g != h
    ensures Key(g) != Key(h)
  {
    assert Key(g)[4] != Key(h)[4];
  }

  /** The four keys are distinct and are the only keys of a group. */
  lemma GetGroupIdsSpec()
    ensures Distinct(GetGroupIds())
    ensures forall s :: s in GetGroupIds() <==> exists g: GroupId :: Key(g) == s
  {
    var r := GetGroupIds();
    forall a, b | 0 <= a < b < |r|
      ensures r[a] != r[b]
    {
      KeyInjective(GroupOrder[a], GroupOrder[b]);
    }
    forall s | exists g: GroupId :: Key(g) == s
      ensures s in r
    {
      var g: GroupId :| Key(g) == s;
      assert r[GroupIndex(g)] == s;
    }
  }

  /** An object filled group by group (`stockGroups[groupId] = …`), in the
      order of `ids`. */
  function AssembleGroups(ids: seq<GroupId>, groupOf: GroupId -> Group): OMap<string, Group> {
    if ids == [] then EmptyMap()
    else AssembleGroups(ids[..|ids| - 1], groupOf).Put(Key(ids[|ids| - 1]), groupOf(ids[|ids| - 1]))
  }

  /** The property names of a list of groups. */
  function KeysOf(ids: seq<GroupId>): (r: seq<string>)
    ensures |r| == |ids|
    ensures forall k :: 0 <= k < |ids| ==> r[k] == Key(ids[k])
  {
    seq(|ids|, k requires 0 <= k < |ids| => Key(ids[k]))
  }

  /** Filling an object with groups of distinct names gives exactly those
      names, in order, each mapped to its group. */
  lemma {:induction false} AssembleGroupsSpec(ids: seq<GroupId>, groupOf: GroupId -> Group)
    requires Distinct(KeysOf(ids))
    ensures AssembleGroups(ids, groupOf).Valid() && AssembleGroups(ids, groupOf).keys == KeysOf(ids)
    ensures forall k :: 0 <= k < |ids| ==> AssembleGroups(ids, groupOf).vals[Key(ids[k])] == groupOf(ids[k])
  {
    if ids != [] {
      var init, last := ids[..|ids| - 1], ids[|ids| - 1];
      assert KeysOf(init) == KeysOf(ids)[..|ids| - 1];
      AssembleGroupsSpec(init, groupOf);
      var m := AssembleGroups(init, groupOf);
      assert Key(last) !in m.keys;
      PutSpec(m, Key(last), groupOf(last));
      assert KeysOf(ids) == KeysOf(init) + [Key(last)];
    }
  }

  /** The object of a load that did not fail: each tab's group, in
      `SHEET_GIDS` order. */
  function GroupsFrom(sheets: GroupId -> SheetResult): OMap<string, Group> {
    AssembleGroups(GroupOrder, g => MakeGroup(g, FetchSheetTickers(sheets(g))))
  }

  /** The object of the catch branch: metadata with the fallback lists. */
  function FallbackGroups(): OMap<string, Group> {
    AssembleGroups(GroupOrder, g => WithTickers(g, Fallback(g)))
  }

  /** All four groups assembled in declaration order: the four metadata keys
      in that order, each with its group. */
  lemma AssembleInOrder(groupOf: GroupId -> Group)
    ensures AssembleGroups(GroupOrder, groupOf).Valid() && AssembleGroups(GroupOrder, groupOf).keys == GetGroupIds()
    ensures forall g: GroupId :: Key(g) in AssembleGroups(GroupOrder, groupOf).vals
                                 && AssembleGroups(GroupOrder, groupOf).vals[Key(g)] == groupOf(g)
  {
    GetGroupIdsSpec();
    assert KeysOf(GroupOrder) == GetGroupIds();
    AssembleGroupsSpec(GroupOrder, groupOf);
    forall g: GroupId
      ensures Key(g) in AssembleGroups(GroupOrder, groupOf).vals
    {
      assert GetGroupIds()[GroupIndex(g)] == Key(g);
    }
  }

  /** After a load that did not fail, the groups are the four metadata keys in
      order, each with the group its tab gave (or its fallback). */
  lemma GroupsFromSpec(sheets: GroupId -> SheetResult)
    ensures GroupsFrom(sheets).Valid() && GroupsFrom(sheets).keys == GetGroupIds()
    ensures forall g: GroupId :: Key(g) in GroupsFrom(sheets).vals
                                 && GroupsFrom(sheets).vals[Key(g)] == MakeGroup(g, FetchSheetTickers(sheets(g)))
  {
    AssembleInOrder(g => MakeGroup(g, FetchSheetTickers(sheets(g))));
  }

  /** After a failed load, the groups are the four metadata keys in order,
      each with its fallback list. */
  lemma FallbackGroupsSpec()
    ensures FallbackGroups().Valid() && FallbackGroups().keys == GetGroupIds()
    ensures forall g: GroupId :: Key(g) in FallbackGroups().vals && FallbackGroups().vals[Key(g)] == WithTickers(g, Fallback(g))
  {
    AssembleInOrder(g => WithTickers(g, Fallback(g)));
  }

  /** Whatever the load's outcome, no group is left without tickers. */
  lemma GroupsNeverEmpty(sheets: GroupId -> SheetResult, g: GroupId)
    ensures Key(g) in GroupsFrom(sheets).vals && |GroupsFrom(sheets).vals[Key(g)].tickers| > 0
    ensures Key(g) in FallbackGroups().vals && |FallbackGroups().vals[Key(g)].tickers| > 0
  {
    GroupsFromSpec(sheets);
    FallbackGroupsSpec();
    MakeGroupSpec(g, FetchSheetTickers(sheets(g)));
    FallbackSpec(g);
  }

  // ---------------------------------------------------------------------------
  // The cache.

  const CacheDuration: nat := 5 * 60 * 1000

  /** The cache test at the top of `loadStockGroups`: not forced, a cache, a timestamp that is
      not 0 (a JavaScript falsy value), and an age under five minutes. */
  predicate CacheFresh(forceRefresh: bool, cache: Option<OMap<string, Group>>, timestamp: Option<Millis>, now: Millis) {
    !forceRefresh && cache.Some? && timestamp.Some? && timestamp.value != 0
    && now as int - timestamp.value < CacheDuration
  }

  /** A cache stamped at a non-zero time t serves unforced loads exactly until
      t + 5 minutes, and never a forced one. */
  lemma CacheFreshWindow(groups: OMap<string, Group>, t: Millis, now: Millis)
    requires t > 0
    ensures CacheFresh(false, Some(groups), Some(t), now) <==> now < t + CacheDuration
    ensures !CacheFresh(true, Some(groups), Some(t), now)
  {
  }

  /** `STOCK_GROUPS[prop]` (the Proxy's `get` trap): the cache, or when
      there is none the fallback structure; an unknown property is undefined. */
  function StockGroupsGet(cache: Option<OMap<string, Group>>, prop: string): (r: Option<Group>)
    ensures cache.Some? ==> (r.Some? <==> prop in cache.value.vals)
    ensures cache.Some? && r.Some? ==> r.value == cache.value.vals[prop]
    ensures cache.None? ==> (r.Some? <==> prop in GetGroupIds())
    ensures cache.None? ==> forall g: GroupId :: prop == Key(g) ==> r == Some(WithTickers(g, Fallback(g)))
  {
    FallbackGroupsSpec();
    var groups := if cache.Some? then cache.value else FallbackGroups();
    if prop in groups.vals then Some(groups.vals[prop]) else None
  }

  /** The `forEach` that fills a fresh object with the four groups. */
  method Assemble(groupOf: GroupId -> Group) returns (groups: OMap<string, Group>)
    ensures groups == AssembleGroups(GroupOrder, groupOf)
  {
    groups := EmptyMap();
    var i := 0;
    while i < |GroupOrder|
      invariant 0 <= i <= |GroupOrder|
      invariant groups == AssembleGroups(GroupOrder[..i], groupOf)
    {
      assert GroupOrder[..i + 1][..i] == GroupOrder[..i];
      var id := GroupOrder[i];
      groups := groups.Put(Key(id), groupOf(id));
      i := i + 1;
    }
    assert GroupOrder[..i] == GroupOrder;
  }

  /** The module-level cache variables. */
  class StockGroupsStore {
    var cache: Option<OMap<string, Group>>
    var cacheTimestamp: Option<Millis>

    constructor ()
      ensures cache.None? && cacheTimestamp.None?
    {
      cache := None;
      cacheTimestamp := None;
    }

    /** `loadStockGroups(forceRefresh)`. `now` is `Date.now()` as read for the
        cache-age test, `stampedAt` the later `Date.now()` read once the tabs
        have been fetched (or the error caught), which becomes the cache's
        timestamp; `sheets` is the outcome of each tab's fetch, and
        `unexpectedError` whether the body of the try block threw. */
    method LoadStockGroups(forceRefresh: bool, now: Millis, stampedAt: Millis,
                           sheets: GroupId -> SheetResult, unexpectedError: bool)
      returns (groups: OMap<string, Group>)
      modifies this
      ensures CacheFresh(forceRefresh, old(cache), old(cacheTimestamp), now) ==>
                groups == old(cache).value && cache == old(cache) && cacheTimestamp == old(cacheTimestamp)
      ensures !CacheFresh(forceRefresh, old(cache), old(cacheTimestamp), now) ==>
                groups == (if unexpectedError then FallbackGroups() else GroupsFrom(sheets))
                && cache == Some(groups) && cacheTimestamp == Some(stampedAt)
    {
      if !forceRefresh && cache.Some? && cacheTimestamp.Some? && cacheTimestamp.value != 0 {
        var cacheAge := now as int - cacheTimestamp.value;
        if cacheAge < CacheDuration {
          return cache.value;
        }
      }
      if unexpectedError {
        groups := Assemble(g => WithTickers(g, Fallback(g)));
      } else {
        groups := Assemble(g => MakeGroup(g, FetchSheetTickers(sheets(g))));
      }
      cache := Some(groups);
      cacheTimestamp := Some(stampedAt);
    }
  }
}

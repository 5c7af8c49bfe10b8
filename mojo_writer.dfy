/**
 * `TargetEncoderMojoWriter`: writes a trained target-encoding model as a MOJO artifact. The
 * scalar keys go to the artifact's key/value info; the missing-value presence flags and the
 * encoding map go to two text files, one line at a time. Before the map is written, a model
 * trained with a fold column has every per-fold frame replaced in place by one grouped by
 * category alone.
 *
 * Java hash maps iterate in an unspecified order: the writer picks each next key with `:|`
 * and reports the order it used, and the file layouts are stated for that order. A reader
 * for each section is given as the writer's inverse. The layouts and their proofs take the
 * text of a key and of a value as function parameters; the artifact's own renderings are
 * `IntToString` and `StatText`.
 */
module TargetEncodingMojo {
  import opened Common
  import opened Decimal
  import opened EncodingFrames
  import TargetEncoding

  const PresencePath := "feature_engineering/target_encoding/te_column_name_to_missing_values_presence.ini"
  const EncodingMapPath := "feature_engineering/target_encoding/encoding_map.ini"
  const RegroupFailureMessage := "Failed to group encoding maps by fold column"

  /** A value written with `writekv` to the artifact's info section. */
  datatype InfoValue = Flag(b: bool) | Real(x: real)

  /** A text file of the artifact, as the lines written to it. */
  datatype TextFile = TextFile(path: string, lines: seq<string>)

  // ---------------------------------------------------------------------------------------
  // Line layouts

  /** The line `writelnkv(key, value)` writes. */
  function KeyValueLine(key: string, value: string): string {
    key + " = " + value
  }

  /** The header that opens a column's block in the encoding-map file: `[column]`. */
  function HeaderLine(column: string): string {
    "[" + column + "]"
  }

  /** A column name is written as it is. */
  function ColumnName(column: string): string {
    column
  }

  /** The value of an encoding-map line: `num denom`. */
  function StatText(stat: Stat): string {
    IntToString(stat.num) + " " + IntToString(stat.den)
  }

  /** One `key = value` line per key of `order`. */
  function KeyValueLines<K, V>(m: map<K, V>, order: seq<K>, key: K -> string, value: V -> string): (lines: seq<string>)
    requires forall i | 0 <= i < |order| :: order[i] in m
    ensures |lines| == |order|
  {
    if order == [] then []
    else KeyValueLines(m, order[..|order| - 1], key, value) + [KeyValueLine(key(order[|order| - 1]), value(m[order[|order| - 1]]))]
  }

  /** Line `i` of the key/value lines is the line of the `i`-th key visited. */
  lemma {:induction false} KeyValueLinesAt<K, V>(m: map<K, V>, order: seq<K>, key: K -> string, value: V -> string)
    requires forall i | 0 <= i < |order| :: order[i] in m
    ensures forall i | 0 <= i < |order| :: KeyValueLines(m, order, key, value)[i] == KeyValueLine(key(order[i]), value(m[order[i]]))
  {
    if order != [] {
      KeyValueLinesAt(m, order[..|order| - 1], key, value);
    }
  }

  /** The presence file: `column = flag` per column. */
  function PresenceLines(presence: map<string, int>, order: seq<string>): seq<string>
    requires forall i | 0 <= i < |order| :: order[i] in presence
  {
    KeyValueLines(presence, order, ColumnName, IntToString)
  }

  /** The order in which the writer visited the encoding map: columns, and each column's categories. */
  datatype ColumnOrder = ColumnOrder(column: string, categories: seq<int>)

  function Columns(order: seq<ColumnOrder>): (columns: seq<string>)
    ensures |columns| == |order| && forall i | 0 <= i < |order| :: columns[i] == order[i].column
  {
    seq(|order|, i requires 0 <= i < |order| => order[i].column)
  }

  /** Every column and category `order` visits exists in `maps`. */
  ghost predicate OrderWithin(maps: map<string, map<int, Stat>>, order: seq<ColumnOrder>) {
    forall i | 0 <= i < |order| ::
      && order[i].column in maps
      && forall j | 0 <= j < |order[i].categories| :: order[i].categories[j] in maps[order[i].column]
  }

  /** `co` names a column of `maps` and visits each of its categories once. */
  ghost predicate CompleteBlock(maps: map<string, map<int, Stat>>, co: ColumnOrder) {
    co.column in maps && Enumerates(co.categories, maps[co.column].Keys)
  }

  /** `order` visits every column once, and within each column every category once. */
  ghost predicate IsMapOrder(maps: map<string, map<int, Stat>>, order: seq<ColumnOrder>) {
    && Enumerates(Columns(order), maps.Keys)
    && forall i | 0 <= i < |order| :: CompleteBlock(maps, order[i])
  }

  /** The column loop's state: `order` has visited each column of `maps` outside `columns` once and completely. */
  ghost predicate VisitedColumns(maps: map<string, map<int, Stat>>, order: seq<ColumnOrder>, columns: set<string>) {
    && columns <= maps.Keys
    && (forall i | 0 <= i < |order| :: order[i].column !in columns && CompleteBlock(maps, order[i]))
    && (forall i, j | 0 <= i < j < |order| :: order[i].column != order[j].column)
    && (forall c | c in maps && c !in columns :: c in Columns(order))
  }

  lemma VisitColumn(maps: map<string, map<int, Stat>>, order: seq<ColumnOrder>, columns: set<string>, co: ColumnOrder)
    requires VisitedColumns(maps, order, columns)
    requires co.column in columns && CompleteBlock(maps, co)
    ensures VisitedColumns(maps, order + [co], columns - {co.column})
  {
    assert Columns(order + [co]) == Columns(order) + [co.column];
  }

  /** When no column is left, the visit is a complete visiting order. */
  lemma VisitedAll(maps: map<string, map<int, Stat>>, order: seq<ColumnOrder>)
    requires VisitedColumns(maps, order, {})
    ensures IsMapOrder(maps, order) && OrderWithin(maps, order)
  {
    MapOrderWithin(maps, order);
  }

  /** Visiting one more complete column appends its header and category lines. */
  lemma MapLinesAppend(maps: map<string, map<int, Stat>>, order: seq<ColumnOrder>, co: ColumnOrder, key: int -> string, value: Stat -> string)
    requires OrderWithin(maps, order) && CompleteBlock(maps, co)
    ensures OrderWithin(maps, order + [co])
    ensures MapLines(maps, order + [co], key, value)
         == MapLines(maps, order, key, value) + [HeaderLine(co.column)] + KeyValueLines(maps[co.column], co.categories, key, value)
  {
    assert (order + [co])[..|order|] == order;
  }

  /** The encoding-map file for given key and value texts: per column, its header and one line per category. */
  function MapLines(maps: map<string, map<int, Stat>>, order: seq<ColumnOrder>, key: int -> string, value: Stat -> string): seq<string>
    requires OrderWithin(maps, order)
  {
    if order == [] then []
    else
      var co := order[|order| - 1];
      MapLines(maps, order[..|order| - 1], key, value) + [HeaderLine(co.column)] + KeyValueLines(maps[co.column], co.categories, key, value)
  }

  /** The encoding-map file: `[column]`, then `catId = num denom` per category. */
  function EncodingMapLines(maps: map<string, map<int, Stat>>, order: seq<ColumnOrder>): seq<string>
    requires OrderWithin(maps, order)
  {
    MapLines(maps, order, IntToString, StatText)
  }

  /** The number of category lines `order` asks for. */
  function CategoryCount(order: seq<ColumnOrder>): nat {
    if order == [] then 0 else CategoryCount(order[..|order| - 1]) + |order[|order| - 1].categories|
  }

  /** The scalar keys of the info section. */
  function InfoEntries(blending: bool, params: Nullable<TargetEncoding.BlendingParams>, priorMean: real): seq<(string, InfoValue)>
    requires blending ==> params.NonNull?
  {
    [("with_blending", Flag(blending))]
    + (if blending then [("inflection_point", Real(params.value.k)), ("smoothing", Real(params.value.f))] else [])
    + [("priorMean", Real(priorMean))]
  }

  // ---------------------------------------------------------------------------------------
  // Readers

  /** Index of the first `c` in `s`, or `|s|` when there is none. */
  function IndexOf(s: string, c: char): (i: nat)
    ensures i <= |s|
    ensures i < |s| ==> s[i] == c
    ensures forall j | 0 <= j < i :: s[j] != c
  {
    if s == [] || s[0] == c then 0
    else 1 + IndexOf(s[1..], c)
  }

  /** Index of the last `c` in `s`, or -1 when there is none. */
  function LastIndexOf(s: string, c: char): (i: int)
    ensures -1 <= i < |s|
    ensures 0 <= i ==> s[i] == c
    ensures forall j | i < j < |s| :: s[j] != c
  {
    if s == [] then -1
    else if s[|s| - 1] == c then |s| - 1
    else LastIndexOf(s[..|s| - 1], c)
  }

  /** Reads `column = flag`: the flag is the text after the last space. */
  function ParsePresenceLine(line: string): Option<(string, int)> {
    var k := LastIndexOf(line, ' ');
    if k < 2 || line[k - 2..k + 1] != " = " then None
    else
      var flag :- ParseInt(line[k + 1..]);
      Some((line[..k - 2], flag))
  }

  /** Reads `num denom`. */
  function ParseStat(text: string): Option<Stat> {
    var j := IndexOf(text, ' ');
    if j == |text| then None
    else
      var num :- ParseInt(text[..j]);
      var den :- ParseInt(text[j + 1..]);
      Some(Stat(num, den))
  }

  /** Reads `catId = num denom`. */
  function ParseCategoryLine(line: string): Option<(int, Stat)> {
    var i := IndexOf(line, ' ');
    if i + 3 > |line| || line[i..i + 3] != " = " then None
    else
      var category :- ParseInt(line[..i]);
      var stat :- ParseStat(line[i + 3..]);
      Some((category, stat))
  }

  /** Reads key/value lines into a map; a malformed line makes the whole section unreadable. */
  function ReadEntries<K, V>(lines: seq<string>, parse: string -> Option<(K, V)>): Option<map<K, V>> {
    if lines == [] then Some(map[])
    else
      var before :- ReadEntries(lines[..|lines| - 1], parse);
      var entry :- parse(lines[|lines| - 1]);
      Some(before[entry.0 := entry.1])
  }

  /** Reads the presence file. */
  function ReadPresence(lines: seq<string>): Option<map<string, int>> {
    ReadEntries(lines, ParsePresenceLine)
  }

  predicate IsHeader(line: string) {
    |line| >= 2 && line[0] == '[' && line[|line| - 1] == ']'
  }

  /** Index of the last header line, or -1 when there is none. */
  function LastHeaderIndex(lines: seq<string>): (h: int)
    ensures -1 <= h < |lines|
    ensures 0 <= h ==> IsHeader(lines[h])
  {
    if lines == [] then -1
    else if IsHeader(lines[|lines| - 1]) then |lines| - 1
    else LastHeaderIndex(lines[..|lines| - 1])
  }

  /** Reads the encoding-map file: each header opens a column whose category lines follow it. */
  function ReadEncodingMap(lines: seq<string>): Option<map<string, map<int, Stat>>>
    decreases |lines|
  {
    if lines == [] then Some(map[])
    else
      var h := LastHeaderIndex(lines);
      if h < 0 then None
      else
        var column := lines[h][1..|lines[h]| - 1];
        var categories :- ReadEntries(lines[h + 1..], ParseCategoryLine);
        var before :- ReadEncodingMap(lines[..h]);
        Some(before[column := categories])
  }

  /** The scalar keys as a scorer reads them back. */
  datatype InfoHeader = InfoHeader(withBlending: bool, blendingParams: Nullable<TargetEncoding.BlendingParams>, priorMean: real)

  function Lookup(entries: seq<(string, InfoValue)>, key: string): Option<InfoValue> {
    if entries == [] then None
    else if entries[0].0 == key then Some(entries[0].1)
    else Lookup(entries[1..], key)
  }

  function ReadInfo(entries: seq<(string, InfoValue)>): Option<InfoHeader> {
    match (Lookup(entries, "with_blending"), Lookup(entries, "priorMean"))
    case (Some(Flag(blending)), Some(Real(priorMean))) =>
      if !blending then Some(InfoHeader(false, Null, priorMean))
      else (
        match (Lookup(entries, "inflection_point"), Lookup(entries, "smoothing"))
        case (Some(Real(k)), Some(Real(f))) => Some(InfoHeader(true, NonNull(TargetEncoding.BlendingParams(k, f)), priorMean))
        case _ => None)
    case _ => None
  }

  /** The posterior mean `num / denom` a scorer computes from a category's statistics. */
  function PosteriorMean(stat: Stat): real
    requires stat.den != 0
  {
    stat.num as real / stat.den as real
  }

  // ---------------------------------------------------------------------------------------
  // Single lines read back

  lemma {:induction false} LastIndexOfAppend(a: string, b: string, c: char)
    requires |a| > 0 && a[|a| - 1] == c && c !in b
    ensures LastIndexOf(a + b, c) == |a| - 1
    decreases |b|
  {
    if b == [] {
      assert a + b == a;
    } else {
      assert (a + b)[..|a + b| - 1] == a + b[..|b| - 1];
      LastIndexOfAppend(a, b[..|b| - 1], c);
    }
  }

  lemma {:induction false} IndexOfAppend(a: string, b: string, c: char)
    requires c !in a && |b| > 0 && b[0] == c
    ensures IndexOf(a + b, c) == |a|
    decreases |a|
  {
    if a != [] {
      assert (a + b)[1..] == a[1..] + b;
      IndexOfAppend(a[1..], b, c);
    }
  }

  /** A value without spaces is found after the last space of its line. */
  lemma SplitAtLastSpace(key: string, value: string)
    requires ' ' !in value
    ensures var line := KeyValueLine(key, value);
      var k := LastIndexOf(line, ' ');
      && k == |key| + 2
      && line[k - 2..k + 1] == " = " && line[k + 1..] == value && line[..k - 2] == key
  {
    var prefix := key + " = ";
    assert KeyValueLine(key, value) == prefix + value;
    LastIndexOfAppend(prefix, value, ' ');
  }

  /** A key without spaces is found before the first space of its line. */
  lemma SplitAtFirstSpace(key: string, value: string)
    requires ' ' !in key
    ensures var line := KeyValueLine(key, value);
      var i := IndexOf(line, ' ');
      && i == |key|
      && i + 3 <= |line| && line[i..i + 3] == " = " && line[..i] == key && line[i + 3..] == value
  {
    assert KeyValueLine(key, value) == key + (" = " + value);
    IndexOfAppend(key, " = " + value, ' ');
  }

  lemma PresenceLineRoundTrip(column: string, flag: int)
    ensures ParsePresenceLine(KeyValueLine(ColumnName(column), IntToString(flag))) == Some((column, flag))
  {
    IntToStringHasNoSpace(flag);
    SplitAtLastSpace(column, IntToString(flag));
    ParseIntToString(flag);
  }

  lemma StatTextRoundTrip(stat: Stat)
    ensures ParseStat(StatText(stat)) == Some(stat)
  {
    var n, d := IntToString(stat.num), IntToString(stat.den);
    IntToStringHasNoSpace(stat.num);
    assert StatText(stat) == n + (" " + d);
    IndexOfAppend(n, " " + d, ' ');
    assert StatText(stat)[..|n|] == n;
    assert StatText(stat)[|n| + 1..] == d;
    ParseIntToString(stat.num);
    ParseIntToString(stat.den);
  }

  lemma CategoryLineRoundTrip(category: int, stat: Stat)
    ensures ParseCategoryLine(KeyValueLine(IntToString(category), StatText(stat))) == Some((category, stat))
  {
    IntToStringHasNoSpace(category);
    SplitAtFirstSpace(IntToString(category), StatText(stat));
    ParseIntToString(category);
    StatTextRoundTrip(stat);
  }

  /** No category line looks like a header: it starts with a digit or '-'. */
  lemma CategoryLineIsNotHeader(category: int, stat: Stat)
    ensures !IsHeader(KeyValueLine(IntToString(category), StatText(stat)))
  {
    IntToStringStart(category);
    assert KeyValueLine(IntToString(category), StatText(stat))[0] == IntToString(category)[0];
  }

  // ---------------------------------------------------------------------------------------
  // Files read back

  /** Restricting a map to a list of keys, one more key at a time. */
  lemma RestrictAppend<K, V>(m: map<K, V>, init: seq<K>, last: K)
    requires last in m && forall i | 0 <= i < |init| :: init[i] in m
    ensures (map k | k in init :: m[k])[last := m[last]] == map k | k in init + [last] :: m[k]
  {
    assert forall k :: k in init + [last] <==> k in init || k == last;
  }

  /** An enumeration of a map's keys restricts the map to itself. */
  lemma EnumeratedMap<K, V>(m: map<K, V>, order: seq<K>)
    requires Enumerates(order, m.Keys)
    ensures (map k | k in order :: m[k]) == m
  {
  }

  /** Reading written key/value lines gives back the entries written. */
  lemma {:induction false} ReadKeyValueLines<K, V>(m: map<K, V>, order: seq<K>, key: K -> string, value: V -> string,
                                                    parse: string -> Option<(K, V)>)
    requires forall i | 0 <= i < |order| :: order[i] in m
    requires forall i | 0 <= i < |order| :: parse(KeyValueLine(key(order[i]), value(m[order[i]]))) == Some((order[i], m[order[i]]))
    ensures ReadEntries(KeyValueLines(m, order, key, value), parse) == Some(map k | k in order :: m[k])
  {
    if order != [] {
      var lines := KeyValueLines(m, order, key, value);
      var init := order[..|order| - 1];
      var last := order[|order| - 1];
      assert lines[..|lines| - 1] == KeyValueLines(m, init, key, value);
      ReadKeyValueLines(m, init, key, value, parse);
      assert order == init + [last];
      RestrictAppend(m, init, last);
    }
  }

  /** The presence file reads back as the presence map it was written from. */
  lemma ReadPresenceFile(presence: map<string, int>, order: seq<string>)
    requires Enumerates(order, presence.Keys)
    ensures ReadPresence(PresenceLines(presence, order)) == Some(presence)
  {
    forall i | 0 <= i < |order|
      ensures ParsePresenceLine(KeyValueLine(ColumnName(order[i]), IntToString(presence[order[i]]))) == Some((order[i], presence[order[i]]))
    {
      PresenceLineRoundTrip(order[i], presence[order[i]]);
    }
    ReadKeyValueLines(presence, order, ColumnName, IntToString, ParsePresenceLine);
    EnumeratedMap(presence, order);
  }

  /** The presence file has exactly one line per column. */
  lemma PresenceFileLength(presence: map<string, int>, order: seq<string>)
    requires Enumerates(order, presence.Keys)
    ensures |PresenceLines(presence, order)| == |presence|
  {
    EnumerationLength(order, presence.Keys);
  }

  /** A column block as the reader sees it: the header's column, the lines under it, and the categories they hold. */
  datatype Block = Block(column: string, body: seq<string>, stats: map<int, Stat>)

  function BlockLines(blocks: seq<Block>): seq<string> {
    if blocks == [] then []
    else BlockLines(blocks[..|blocks| - 1]) + [HeaderLine(blocks[|blocks| - 1].column)] + blocks[|blocks| - 1].body
  }

  /** What reading the blocks one after another yields: a later block of a column replaces an earlier one. */
  function BlocksRead(blocks: seq<Block>): map<string, map<int, Stat>> {
    if blocks == [] then map[]
    else BlocksRead(blocks[..|blocks| - 1])[blocks[|blocks| - 1].column := blocks[|blocks| - 1].stats]
  }

  function BlockColumns(blocks: seq<Block>): (columns: seq<string>)
    ensures |columns| == |blocks| && forall i | 0 <= i < |blocks| :: columns[i] == blocks[i].column
  {
    seq(|blocks|, i requires 0 <= i < |blocks| => blocks[i].column)
  }

  ghost predicate ReadableBlock(b: Block) {
    && (forall i | 0 <= i < |b.body| :: !IsHeader(b.body[i]))
    && ReadEntries(b.body, ParseCategoryLine) == Some(b.stats)
  }

  /** The lines after the last header are none of them headers. */
  lemma {:induction false} LastHeaderOfBlock(before: seq<string>, header: string, after: seq<string>)
    requires IsHeader(header)
    requires forall i | 0 <= i < |after| :: !IsHeader(after[i])
    ensures LastHeaderIndex(before + [header] + after) == |before|
    decreases |after|
  {
    if after != [] {
      var lines := before + [header] + after;
      assert lines[..|lines| - 1] == before + [header] + after[..|after| - 1];
      LastHeaderOfBlock(before, header, after[..|after| - 1]);
    }
  }

  /** A header followed by readable non-header lines adds that column to what precedes it. */
  lemma ReadBlock(before: seq<string>, column: string, body: seq<string>, stats: map<int, Stat>)
    requires forall i | 0 <= i < |body| :: !IsHeader(body[i])
    requires ReadEntries(body, ParseCategoryLine) == Some(stats)
    ensures ReadEncodingMap(before + [HeaderLine(column)] + body)
         == (if ReadEncodingMap(before).Some? then Some(ReadEncodingMap(before).value[column := stats]) else None)
  {
    var header := HeaderLine(column);
    var lines := before + [header] + body;
    LastHeaderOfBlock(before, header, body);
    assert lines[|before|] == header;
    assert header[1..|header| - 1] == column;
    assert lines[..|before|] == before;
    assert lines[|before| + 1..] == body;
  }

  lemma {:induction false} ReadBlocks(blocks: seq<Block>)
    requires forall i | 0 <= i < |blocks| :: ReadableBlock(blocks[i])
    ensures ReadEncodingMap(BlockLines(blocks)) == Some(BlocksRead(blocks))
  {
    if blocks != [] {
      var init := blocks[..|blocks| - 1];
      var last := blocks[|blocks| - 1];
      assert forall i | 0 <= i < |init| :: init[i] == blocks[i];
      ReadBlocks(init);
      assert ReadableBlock(last);
      ReadBlock(BlockLines(init), last.column, last.body, last.stats);
    }
  }

  /** Blocks that each hold their column's full map read back as those columns of the map. */
  lemma {:induction false} BlocksReadColumns(maps: map<string, map<int, Stat>>, blocks: seq<Block>)
    requires forall i | 0 <= i < |blocks| :: blocks[i].column in maps && blocks[i].stats == maps[blocks[i].column]
    ensures BlocksRead(blocks) == map c | c in BlockColumns(blocks) :: maps[c]
  {
    if blocks != [] {
      var init := blocks[..|blocks| - 1];
      var last := blocks[|blocks| - 1];
      assert forall i | 0 <= i < |init| :: init[i] == blocks[i];
      BlocksReadColumns(maps, init);
      assert BlockColumns(blocks) == BlockColumns(init) + [last.column];
      RestrictAppend(maps, BlockColumns(init), last.column);
    }
  }

  /** The blocks of the columns visited in `order`. */
  function ColumnBlocks(maps: map<string, map<int, Stat>>, order: seq<ColumnOrder>, key: int -> string, value: Stat -> string): (blocks: seq<Block>)
    requires OrderWithin(maps, order)
    ensures |blocks| == |order|
    ensures forall i | 0 <= i < |order| ::
      blocks[i] == Block(order[i].column, KeyValueLines(maps[order[i].column], order[i].categories, key, value), maps[order[i].column])
  {
    seq(|order|, i requires 0 <= i < |order| =>
      Block(order[i].column, KeyValueLines(maps[order[i].column], order[i].categories, key, value), maps[order[i].column]))
  }

  lemma {:induction false} MapLinesAsBlocks(maps: map<string, map<int, Stat>>, order: seq<ColumnOrder>, key: int -> string, value: Stat -> string)
    requires OrderWithin(maps, order)
    ensures MapLines(maps, order, key, value) == BlockLines(ColumnBlocks(maps, order, key, value))
  {
    if order != [] {
      var init := order[..|order| - 1];
      MapLinesAsBlocks(maps, init, key, value);
      assert ColumnBlocks(maps, order, key, value)[..|order| - 1] == ColumnBlocks(maps, init, key, value);
    }
  }

  /** A complete visiting order visits only columns and categories that exist. */
  lemma MapOrderWithin(maps: map<string, map<int, Stat>>, order: seq<ColumnOrder>)
    requires IsMapOrder(maps, order)
    ensures OrderWithin(maps, order)
  {
    forall i | 0 <= i < |order| ensures order[i].column in maps
      && forall j | 0 <= j < |order[i].categories| :: order[i].categories[j] in maps[order[i].column]
    {
      assert CompleteBlock(maps, order[i]);
    }
  }

  /** The category line of `k` and `s` for given key and value texts. */
  function CategoryLine(key: int -> string, value: Stat -> string, k: int, s: Stat): string {
    KeyValueLine(key(k), value(s))
  }

  /** Key and value texts whose category lines read back and never look like a header. */
  ghost predicate ReadableTexts(key: int -> string, value: Stat -> string) {
    && (forall k, s :: !IsHeader(CategoryLine(key, value, k, s)))
    && (forall k, s :: ParseCategoryLine(CategoryLine(key, value, k, s)) == Some((k, s)))
  }

  /** The category lines of one column, visited completely, read back as that column's map. */
  lemma CategoryLinesReadable(column: string, m: map<int, Stat>, categories: seq<int>, key: int -> string, value: Stat -> string)
    requires Enumerates(categories, m.Keys)
    requires ReadableTexts(key, value)
    ensures ReadableBlock(Block(column, KeyValueLines(m, categories, key, value), m))
  {
    var body := KeyValueLines(m, categories, key, value);
    KeyValueLinesAt(m, categories, key, value);
    forall j | 0 <= j < |body| ensures !IsHeader(body[j]) {
      assert body[j] == CategoryLine(key, value, categories[j], m[categories[j]]);
    }
    forall i | 0 <= i < |categories|
      ensures ParseCategoryLine(KeyValueLine(key(categories[i]), value(m[categories[i]]))) == Some((categories[i], m[categories[i]]))
    {
      assert KeyValueLine(key(categories[i]), value(m[categories[i]])) == CategoryLine(key, value, categories[i], m[categories[i]]);
    }
    ReadKeyValueLines(m, categories, key, value, ParseCategoryLine);
    EnumeratedMap(m, categories);
  }

  /** With readable texts, every column block reads back as its column's map. */
  lemma ColumnBlocksReadable(maps: map<string, map<int, Stat>>, order: seq<ColumnOrder>, key: int -> string, value: Stat -> string)
    requires IsMapOrder(maps, order) && OrderWithin(maps, order)
    requires ReadableTexts(key, value)
    ensures forall i | 0 <= i < |order| :: ReadableBlock(ColumnBlocks(maps, order, key, value)[i])
  {
    var blocks := ColumnBlocks(maps, order, key, value);
    forall i | 0 <= i < |blocks| ensures ReadableBlock(blocks[i]) {
      var co := order[i];
      assert CompleteBlock(maps, co);
      CategoryLinesReadable(co.column, maps[co.column], co.categories, key, value);
    }
  }

  /** The artifact's category lines, `catId = num denom`, read back and are never headers. */
  lemma ArtifactTextsReadable()
    ensures ReadableTexts(IntToString, StatText)
  {
    forall k, s ensures !IsHeader(CategoryLine(IntToString, StatText, k, s)) {
      CategoryLineIsNotHeader(k, s);
    }
    forall k, s ensures ParseCategoryLine(CategoryLine(IntToString, StatText, k, s)) == Some((k, s)) {
      CategoryLineRoundTrip(k, s);
    }
  }

  /** Readable blocks, one per column and each holding that column's map, read back as the whole map. */
  lemma ReadWholeMap(maps: map<string, map<int, Stat>>, blocks: seq<Block>)
    requires forall i | 0 <= i < |blocks| :: ReadableBlock(blocks[i])
    requires forall i | 0 <= i < |blocks| :: blocks[i].column in maps && blocks[i].stats == maps[blocks[i].column]
    requires Enumerates(BlockColumns(blocks), maps.Keys)
    ensures ReadEncodingMap(BlockLines(blocks)) == Some(maps)
  {
    ReadBlocks(blocks);
    BlocksReadColumns(maps, blocks);
    EnumeratedMap(maps, BlockColumns(blocks));
  }

  /** The blocks of a visiting order hold the columns in the order visited. */
  lemma ColumnBlocksColumns(maps: map<string, map<int, Stat>>, order: seq<ColumnOrder>, key: int -> string, value: Stat -> string)
    requires OrderWithin(maps, order)
    ensures BlockColumns(ColumnBlocks(maps, order, key, value)) == Columns(order)
  {
  }

  /** Readable blocks of a complete visit read back as the whole map. */
  lemma ReadColumnBlocks(maps: map<string, map<int, Stat>>, order: seq<ColumnOrder>, key: int -> string, value: Stat -> string)
    requires IsMapOrder(maps, order) && OrderWithin(maps, order)
    requires forall i | 0 <= i < |order| :: ReadableBlock(ColumnBlocks(maps, order, key, value)[i])
    ensures ReadEncodingMap(MapLines(maps, order, key, value)) == Some(maps)
  {
    var blocks := ColumnBlocks(maps, order, key, value);
    ColumnBlocksColumns(maps, order, key, value);
    ReadWholeMap(maps, blocks);
    MapLinesAsBlocks(maps, order, key, value);
  }

  /** Any key and value texts that read back, and never look like a header, make a map file that reads back. */
  lemma ReadMapLines(maps: map<string, map<int, Stat>>, order: seq<ColumnOrder>, key: int -> string, value: Stat -> string)
    requires IsMapOrder(maps, order)
    requires ReadableTexts(key, value)
    ensures OrderWithin(maps, order)
    ensures ReadEncodingMap(MapLines(maps, order, key, value)) == Some(maps)
  {
    MapOrderWithin(maps, order);
    ColumnBlocksReadable(maps, order, key, value);
    ReadColumnBlocks(maps, order, key, value);
  }

  /** The encoding-map file reads back as the map it was written from, whatever the visiting order. */
  lemma ReadEncodingMapFile(maps: map<string, map<int, Stat>>, order: seq<ColumnOrder>)
    requires IsMapOrder(maps, order)
    ensures OrderWithin(maps, order)
    ensures ReadEncodingMap(EncodingMapLines(maps, order)) == Some(maps)
  {
    ArtifactTextsReadable();
    ReadMapLines(maps, order, IntToString, StatText);
  }

  /** The encoding-map file has one header per column and one line per category. */
  lemma {:induction false} MapLineCount(maps: map<string, map<int, Stat>>, order: seq<ColumnOrder>, key: int -> string, value: Stat -> string)
    requires OrderWithin(maps, order)
    ensures |MapLines(maps, order, key, value)| == |order| + CategoryCount(order)
  {
    if order != [] {
      MapLineCount(maps, order[..|order| - 1], key, value);
    }
  }

  /** For a complete visit, the line count is the number of columns plus each column's number of categories. */
  lemma EncodingMapFileSize(maps: map<string, map<int, Stat>>, order: seq<ColumnOrder>)
    requires IsMapOrder(maps, order)
    ensures OrderWithin(maps, order)
    ensures |EncodingMapLines(maps, order)| == |maps| + CategoryCount(order)
    ensures forall i | 0 <= i < |order| :: |order[i].categories| == |maps[order[i].column]|
  {
    forall i | 0 <= i < |order| ensures |order[i].categories| == |maps[order[i].column]| {
      assert CompleteBlock(maps, order[i]);
      EnumerationLength(order[i].categories, maps[order[i].column].Keys);
    }
    assert OrderWithin(maps, order);
    MapLineCount(maps, order, IntToString, StatText);
    EnumerationLength(Columns(order), maps.Keys);
  }

  /** A scorer reading a written category recovers the posterior mean `num / denom`. */
  lemma ReadBackPosteriorMean(maps: map<string, map<int, Stat>>, order: seq<ColumnOrder>, column: string, category: int)
    requires IsMapOrder(maps, order)
    requires column in maps && category in maps[column] && maps[column][category].den != 0
    ensures OrderWithin(maps, order)
    ensures
      var read := ReadEncodingMap(EncodingMapLines(maps, order));
      && read.Some? && column in read.value && category in read.value[column]
      && read.value[column][category].den != 0
      && PosteriorMean(read.value[column][category]) == PosteriorMean(maps[column][category])
  {
    ReadEncodingMapFile(maps, order);
  }

  /** `with_blending` comes first, `priorMean` last, and `inflection_point`, `smoothing` sit between iff blending. */
  lemma InfoLayout(blending: bool, params: Nullable<TargetEncoding.BlendingParams>, priorMean: real)
    requires blending ==> params.NonNull?
    ensures var entries := InfoEntries(blending, params, priorMean);
      && entries[0] == ("with_blending", Flag(blending))
      && entries[|entries| - 1] == ("priorMean", Real(priorMean))
      && (blending ==> |entries| == 4 && entries[1].0 == "inflection_point" && entries[2].0 == "smoothing")
      && (!blending ==> |entries| == 2)
  {
  }

  /** The info section reads back as the blending flag, its parameters when blending, and the prior mean. */
  lemma ReadInfoEntries(blending: bool, params: Nullable<TargetEncoding.BlendingParams>, priorMean: real)
    requires blending ==> params.NonNull?
    ensures ReadInfo(InfoEntries(blending, params, priorMean))
         == Some(InfoHeader(blending, if blending then params else Null, priorMean))
  {
    var entries := InfoEntries(blending, params, priorMean);
    assert Lookup(entries, "with_blending") == Some(Flag(blending));
    if blending {
      assert entries[1..][1..][1..] == [("priorMean", Real(priorMean))];
      assert Lookup(entries, "inflection_point") == Some(Real(params.value.k));
      assert Lookup(entries, "smoothing") == Lookup(entries[1..][1..], "smoothing");
      assert "smoothing"[0] != "priorMean"[0] && "inflection_point" != "priorMean";
      assert Lookup(entries[1..][1..], "priorMean") == Lookup(entries[1..][1..][1..], "priorMean");
      assert Lookup(entries, "priorMean") == Lookup(entries[1..][1..][1..], "priorMean");
    } else {
      assert entries[1..] == [("priorMean", Real(priorMean))];
      assert Lookup(entries, "priorMean") == Some(Real(priorMean));
    }
  }

  // ---------------------------------------------------------------------------------------
  // The writer

  /** `files` with `lines` appended to its last, open file. */
  function AppendLines(files: seq<TextFile>, lines: seq<string>): seq<TextFile>
    requires |files| > 0
  {
    var last := files[|files| - 1];
    files[..|files| - 1] + [TextFile(last.path, last.lines + lines)]
  }

  lemma AppendLinesTwice(files: seq<TextFile>, a: seq<string>, b: seq<string>)
    requires |files| > 0
    ensures AppendLines(AppendLines(files, a), b) == AppendLines(files, a + b)
  {
    var last := files[|files| - 1];
    assert AppendLines(files, a)[..|files| - 1] == files[..|files| - 1];
    assert last.lines + a + b == last.lines + (a + b);
  }

  /** After a successful regrouping step: untouched without a fold column, every frame regrouped with one. */
  ghost predicate Regrouped(foldColumn: Nullable<string>, before: map<string, EncodingFrame>, after: map<string, EncodingFrame>) {
    && after.Keys == before.Keys
    && (foldColumn.Null? ==> after == before)
    && (foldColumn.NonNull? ==> forall c | c in before ::
          GroupingIgnoringFoldColumn(foldColumn.value, before[c]) == Success(after[c]))
  }

  /** Regrouping cannot fail: there is no fold column, or every frame of the map regroups. */
  ghost predicate RegroupSucceeds(foldColumn: Nullable<string>, frames: map<string, EncodingFrame>) {
    foldColumn.Null? || forall c | c in frames :: GroupingIgnoringFoldColumn(foldColumn.value, frames[c]).Success?
  }

  /** A frame after a failed regrouping: either still the original or already replaced by its regrouping. */
  ghost predicate PartlyRegrouped(fold: string, original: EncodingFrame, current: EncodingFrame) {
    current == original || GroupingIgnoringFoldColumn(fold, original) == Success(current)
  }

  /** With a fold column, the statistics written for each category are its sums over all folds. */
  lemma WrittenStatisticsIgnoreFolds(fold: string, before: map<string, EncodingFrame>, after: map<string, EncodingFrame>,
                                     column: string, category: int)
    requires Regrouped(NonNull(fold), before, after)
    requires column in before
    ensures before[column].FoldFrame?
    ensures var maps := ConvertEncodingMapFromFrameToMap(after);
      && (category in maps[column] <==> category in Categories(before[column].rows))
      && (category in maps[column] ==> maps[column][category] == CategoryTotal(before[column].rows, category))
  {
  }

  class TargetEncoderMojoWriter {
    const model: TargetEncoding.TargetEncoderModel
    /** The key/value pairs written with `writekv`. */
    var info: seq<(string, InfoValue)>
    /** The text files written, in order; while `writing`, the last one is open. */
    var files: seq<TextFile>
    var writing: bool

    constructor (model: TargetEncoding.TargetEncoderModel)
      ensures this.model == model && info == [] && files == [] && !writing
    {
      this.model := model;
      info := [];
      files := [];
      writing := false;
    }

    /** `mojoVersion`: the version of the artifact layout this writer produces. */
    function MojoVersion(): (version: string)
      ensures version == "1.00"
    {
      "1.00"
    }

    method Writekv(key: string, value: InfoValue)
      modifies this
      ensures info == old(info) + [(key, value)] && files == old(files) && writing == old(writing)
    {
      info := info + [(key, value)];
    }

    method StartWritingTextFile(path: string)
      requires !writing
      modifies this
      ensures writing && files == old(files) + [TextFile(path, [])] && info == old(info)
    {
      files := files + [TextFile(path, [])];
      writing := true;
    }

    method Writeln(line: string)
      requires writing && |files| > 0
      modifies this
      ensures writing && files == AppendLines(old(files), [line]) && info == old(info)
    {
      files := AppendLines(files, [line]);
    }

    method Writelnkv(key: string, value: string)
      requires writing && |files| > 0
      modifies this
      ensures writing && files == AppendLines(old(files), [KeyValueLine(key, value)]) && info == old(info)
    {
      Writeln(KeyValueLine(key, value));
    }

    method FinishWritingTextFile()
      requires writing
      modifies this
      ensures !writing && files == old(files) && info == old(info)
    {
      writing := false;
    }

    /** `writeExtraInfo`: writes nothing. */
    method WriteExtraInfo()
      modifies this
      ensures info == old(info) && files == old(files) && writing == old(writing)
    {
    }

    /**
     * `writeModelData`: the info section (scalar keys, then the presence file), then the
     * encoding-map file. A failure stops the writing where it happened.
     */
    method WriteModelData() returns (r: Outcome, ghost presenceOrder: seq<string>, ghost mapOrder: seq<ColumnOrder>)
      requires !writing
      modifies this, model.output
      ensures !writing
      ensures model.output.targetEncodingMap.Keys == old(model.output.targetEncodingMap.Keys)
      ensures var parms := model.output.parms;
        r.Pass? <==> !(parms.blending && parms.blendingParameters.Null?)
                     && RegroupSucceeds(parms.foldColumn, old(model.output.targetEncodingMap))
      ensures var parms := model.output.parms;
        parms.blending && parms.blendingParameters.Null? ==>
          && r == Fail(NullPointer) && files == old(files)
          && info == old(info) + [("with_blending", Flag(true))]
          && model.output.targetEncodingMap == old(model.output.targetEncodingMap)
      ensures var parms := model.output.parms;
        !(parms.blending && parms.blendingParameters.Null?) ==>
          && info == old(info) + InfoEntries(parms.blending, parms.blendingParameters, model.output.priorMean)
          && Enumerates(presenceOrder, model.output.columnNameToMissingValPresence.Keys)
          && |files| >= |old(files)| + 1
          && files[..|old(files)| + 1] == old(files) + [TextFile(PresencePath, PresenceLines(model.output.columnNameToMissingValPresence, presenceOrder))]
      ensures var parms := model.output.parms;
        !(parms.blending && parms.blendingParameters.Null?) && r.Fail? ==>
          && r.error == IllegalState(RegroupFailureMessage)
          && files == old(files) + [TextFile(PresencePath, PresenceLines(model.output.columnNameToMissingValPresence, presenceOrder))]
          && parms.foldColumn.NonNull?
          && forall c | c in model.output.targetEncodingMap ::
               PartlyRegrouped(parms.foldColumn.value, old(model.output.targetEncodingMap)[c], model.output.targetEncodingMap[c])
      ensures r.Pass? ==> Regrouped(model.output.parms.foldColumn, old(model.output.targetEncodingMap), model.output.targetEncodingMap)
      ensures r.Pass? ==>
        var maps := ConvertEncodingMapFromFrameToMap(model.output.targetEncodingMap);
        && Enumerates(presenceOrder, model.output.columnNameToMissingValPresence.Keys)
        && IsMapOrder(maps, mapOrder)
        && files == old(files) + [TextFile(PresencePath, PresenceLines(model.output.columnNameToMissingValPresence, presenceOrder)),
                                  TextFile(EncodingMapPath, EncodingMapLines(maps, mapOrder))]
      ensures model.output.columnNameToMissingValPresence == old(model.output.columnNameToMissingValPresence)
      ensures model.output.priorMean == old(model.output.priorMean)
      ensures model.output.modelSummary == old(model.output.modelSummary)
    {
      mapOrder := [];
      r, presenceOrder := WriteTargetEncodingInfo();
      if r.Fail? {
        return;
      }
      ghost var afterInfo := files;
      r, mapOrder := WriteTargetEncodingMap();
      assert files[..|old(files)| + 1] == afterInfo;
    }

    /** `writeTargetEncodingInfo`: the scalar keys, then one `column = 0|1` line per presence flag. */
    method WriteTargetEncodingInfo() returns (r: Outcome, ghost order: seq<string>)
      requires !writing
      modifies this
      ensures !writing
      ensures var parms := model.output.parms;
        r.Pass? <==> !(parms.blending && parms.blendingParameters.Null?)
      ensures r.Fail? ==> r.error == NullPointer && files == old(files) && info == old(info) + [("with_blending", Flag(true))]
      ensures var parms := model.output.parms;
        r.Pass? ==>
          && info == old(info) + InfoEntries(parms.blending, parms.blendingParameters, model.output.priorMean)
          && Enumerates(order, model.output.columnNameToMissingValPresence.Keys)
          && files == old(files) + [TextFile(PresencePath, PresenceLines(model.output.columnNameToMissingValPresence, order))]
    {
      var output := model.output;
      var teParams := output.parms;
      order := [];
      Writekv("with_blending", Flag(teParams.blending));
      if teParams.blending {
        if teParams.blendingParameters.Null? {
          return Fail(NullPointer), order;
        }
        Writekv("inflection_point", Real(teParams.blendingParameters.value.k));
        Writekv("smoothing", Real(teParams.blendingParameters.value.f));
      }
      Writekv("priorMean", Real(output.priorMean));

      ghost var before := files;
      StartWritingTextFile(PresencePath);
      order := WriteEntryLines(output.columnNameToMissingValPresence, ColumnName, IntToString);
      FinishWritingTextFile();
      assert files == before + [TextFile(PresencePath, [] + PresenceLines(output.columnNameToMissingValPresence, order))];
      assert [] + PresenceLines(output.columnNameToMissingValPresence, order) == PresenceLines(output.columnNameToMissingValPresence, order);
      r := Pass;
    }

    /**
     * The loop both text files share: `writelnkv(key, value)` for every entry of a hash map,
     * in the map's iteration order.
     */
    method WriteEntryLines<K(==), V>(m: map<K, V>, key: K -> string, value: V -> string) returns (ghost order: seq<K>)
      requires writing && |files| > 0
      modifies this
      ensures writing && info == old(info)
      ensures Enumerates(order, m.Keys)
      ensures files == AppendLines(old(files), KeyValueLines(m, order, key, value))
    {
      var remaining := m.Keys;
      order := [];
      ghost var start := files;
      assert start == AppendLines(start, []) by {
        assert start[|start| - 1].lines + [] == start[|start| - 1].lines;
      }
      while remaining != {}
        invariant writing && info == old(info)
        invariant remaining <= m.Keys
        invariant forall i | 0 <= i < |order| :: order[i] in m && order[i] !in remaining
        invariant forall i, j | 0 <= i < j < |order| :: order[i] != order[j]
        invariant forall k | k in m && k !in remaining :: k in order
        invariant files == AppendLines(start, KeyValueLines(m, order, key, value))
        decreases remaining
      {
        var entry :| entry in remaining;
        ghost var line := KeyValueLine(key(entry), value(m[entry]));
        AppendLinesTwice(start, KeyValueLines(m, order, key, value), [line]);
        Writelnkv(key(entry), value(m[entry]));
        order := order + [entry];
        remaining := remaining - {entry};
      }
    }

    /**
     * `writeTargetEncodingMap`: regroups by fold when needed, converts the frames to integer
     * maps and writes a `[column]` header followed by one `catId = num denom` line per category.
     */
    method WriteTargetEncodingMap() returns (r: Outcome, ghost order: seq<ColumnOrder>)
      requires !writing
      modifies this, model.output
      ensures !writing && info == old(info)
      ensures model.output.targetEncodingMap.Keys == old(model.output.targetEncodingMap.Keys)
      ensures r.Pass? <==> RegroupSucceeds(model.output.parms.foldColumn, old(model.output.targetEncodingMap))
      ensures r.Fail? ==> files == old(files) && r.error == IllegalState(RegroupFailureMessage)
      ensures r.Fail? ==> model.output.parms.foldColumn.NonNull? && forall c | c in model.output.targetEncodingMap ::
        PartlyRegrouped(model.output.parms.foldColumn.value, old(model.output.targetEncodingMap)[c], model.output.targetEncodingMap[c])
      ensures r.Pass? ==>
        var maps := ConvertEncodingMapFromFrameToMap(model.output.targetEncodingMap);
        && IsMapOrder(maps, order)
        && files == old(files) + [TextFile(EncodingMapPath, EncodingMapLines(maps, order))]
      ensures r.Pass? ==> Regrouped(model.output.parms.foldColumn, old(model.output.targetEncodingMap), model.output.targetEncodingMap)
      ensures model.output.columnNameToMissingValPresence == old(model.output.columnNameToMissingValPresence)
      ensures model.output.priorMean == old(model.output.priorMean)
      ensures model.output.modelSummary == old(model.output.modelSummary)
    {
      order := [];
      r := IfNeededRegroupEncodingMapsByFoldColumn();
      if r.Fail? {
        return;
      }
      var convertedEncodingMap := ConvertEncodingMapFromFrameToMap(model.output.targetEncodingMap);
      ghost var before := files;
      StartWritingTextFile(EncodingMapPath);
      order := WriteColumnBlocks(convertedEncodingMap, IntToString, StatText);
      FinishWritingTextFile();
      assert files == before + [TextFile(EncodingMapPath, [] + EncodingMapLines(convertedEncodingMap, order))];
      assert [] + EncodingMapLines(convertedEncodingMap, order) == EncodingMapLines(convertedEncodingMap, order);
    }

    /** The column loop of `writeTargetEncodingMap`: a header per column of `maps`, then its category lines. */
    method WriteColumnBlocks(maps: map<string, map<int, Stat>>, key: int -> string, value: Stat -> string) returns (ghost order: seq<ColumnOrder>)
      requires writing && |files| > 0
      modifies this
      ensures writing && info == old(info)
      ensures IsMapOrder(maps, order) && OrderWithin(maps, order)
      ensures files == AppendLines(old(files), MapLines(maps, order, key, value))
    {
      ghost var start := files;
      assert start == AppendLines(start, []) by {
        assert start[|start| - 1].lines + [] == start[|start| - 1].lines;
      }
      var columns := maps.Keys;
      order := [];
      while columns != {}
        invariant writing && info == old(info)
        invariant VisitedColumns(maps, order, columns) && OrderWithin(maps, order)
        invariant files == AppendLines(start, MapLines(maps, order, key, value))
        decreases columns
      {
        var column :| column in columns;
        ghost var written := MapLines(maps, order, key, value);
        AppendLinesTwice(start, written, [HeaderLine(column)]);
        Writeln(HeaderLine(column));
        ghost var visited := WriteEntryLines(maps[column], key, value);
        AppendLinesTwice(start, written + [HeaderLine(column)], KeyValueLines(maps[column], visited, key, value));
        ghost var co := ColumnOrder(column, visited);
        VisitColumn(maps, order, columns, co);
        MapLinesAppend(maps, order, co, key, value);
        order := order + [co];
        columns := columns - {column};
      }
      VisitedAll(maps, order);
    }

    /**
     * `ifNeededRegroupEncodingMapsByFoldColumn`: with a fold column configured, replaces every
     * frame in place by its regrouping by category alone; any failure surfaces as
     * `IllegalStateException`. Without a fold column the map is left untouched.
     */
    method IfNeededRegroupEncodingMapsByFoldColumn() returns (r: Outcome)
      modifies model.output
      ensures model.output.targetEncodingMap.Keys == old(model.output.targetEncodingMap.Keys)
      ensures model.output.parms.foldColumn.Null? ==>
        r.Pass? && model.output.targetEncodingMap == old(model.output.targetEncodingMap)
      ensures r.Pass? <==> RegroupSucceeds(model.output.parms.foldColumn, old(model.output.targetEncodingMap))
      ensures r.Pass? ==> Regrouped(model.output.parms.foldColumn, old(model.output.targetEncodingMap), model.output.targetEncodingMap)
      ensures r.Fail? ==> r.error == IllegalState(RegroupFailureMessage)
      ensures r.Fail? ==> model.output.parms.foldColumn.NonNull? && forall c | c in model.output.targetEncodingMap ::
        PartlyRegrouped(model.output.parms.foldColumn.value, old(model.output.targetEncodingMap)[c], model.output.targetEncodingMap[c])
      ensures model.output.columnNameToMissingValPresence == old(model.output.columnNameToMissingValPresence)
      ensures model.output.priorMean == old(model.output.priorMean)
      ensures model.output.modelSummary == old(model.output.modelSummary)
    {
      var output := model.output;
      var teFoldColumnName := output.parms.foldColumn;
      if teFoldColumnName.NonNull? {
        var fold := teFoldColumnName.value;
        ghost var original := output.targetEncodingMap;
        var remaining := output.targetEncodingMap.Keys;
        while remaining != {}
          invariant remaining <= original.Keys
          invariant output.targetEncodingMap.Keys == original.Keys
          invariant forall c | c in original && c !in remaining ::
            GroupingIgnoringFoldColumn(fold, original[c]) == Success(output.targetEncodingMap[c])
          invariant forall c | c in remaining :: output.targetEncodingMap[c] == original[c]
          invariant output.columnNameToMissingValPresence == old(output.columnNameToMissingValPresence)
          invariant output.priorMean == old(output.priorMean)
          invariant output.modelSummary == old(output.modelSummary)
          decreases remaining
        {
          var key :| key in remaining;
          var originalFrameWithFolds := output.targetEncodingMap[key];
          var grouped := GroupingIgnoringFoldColumn(fold, originalFrameWithFolds);
          if grouped.Failure? {
            return Fail(IllegalState(RegroupFailureMessage));
          }
          output.targetEncodingMap := output.targetEncodingMap[key := grouped.value];
          remaining := remaining - {key};
        }
      }
      r := Pass;
    }
  }
}

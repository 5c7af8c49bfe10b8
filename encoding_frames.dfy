/**
 * The per-column encoding frames held by a trained target-encoding model, and the three
 * frame operations the model and its MOJO writer call: grouping a fold-partitioned frame
 * by category alone (`TargetEncoder.groupingIgnoringFoldColumn`), converting frames to
 * integer maps (`TargetEncoderFrameHelper.convertEncodingMapFromFrameToMap`) and deleting
 * a frame's data (`Frame.delete`). Their Java bodies are not part of this model; they are
 * stated here as the functions over integer maps that their callers rely on.
 */
module EncodingFrames {
  import opened Common

  /** A category's accumulated response (numerator) and row count (denominator). */
  datatype Stat = Stat(num: int, den: int)

  function Add(a: Stat, b: Stat): Stat {
    Stat(a.num + b.num, a.den + b.den)
  }

  const Zero := Stat(0, 0)

  /** One row of a fold-partitioned encoding frame: the statistics of a category within a fold. */
  datatype FoldRow = FoldRow(category: int, fold: int, stat: Stat)

  /**
   * An encoding frame for one column. `cardinality` is the size of the encoded column's
   * domain in the frame. A frame built with a fold column holds one row per
   * (category, fold); a frame grouped by category alone maps each category to its statistics.
   */
  datatype EncodingFrame =
    | FoldFrame(cardinality: int, foldColumn: string, rows: seq<FoldRow>)
    | CategoryFrame(cardinality: int, stats: map<int, Stat>)

  /** The categories that occur in `rows`. */
  function Categories(rows: seq<FoldRow>): set<int> {
    set i | 0 <= i < |rows| :: rows[i].category
  }

  /** The sum, over all folds, of the statistics of category `c`. */
  function CategoryTotal(rows: seq<FoldRow>, c: int): Stat {
    if rows == [] then Zero
    else
      var last := rows[|rows| - 1];
      var before := CategoryTotal(rows[..|rows| - 1], c);
      if last.category == c then Add(before, last.stat) else before
  }

  /** Group-by-category of fold rows: sums numerators and denominators over folds. */
  function SumByCategory(rows: seq<FoldRow>): (m: map<int, Stat>)
    ensures m.Keys == Categories(rows)
    ensures forall c | c in m :: m[c] == CategoryTotal(rows, c)
  {
    if rows == [] then map[]
    else
      var before := SumByCategory(rows[..|rows| - 1]);
      var last := rows[|rows| - 1];
      assert Categories(rows) == Categories(rows[..|rows| - 1]) + {last.category} by {
        assert forall i | 0 <= i < |rows| - 1 :: rows[..|rows| - 1][i] == rows[i];
      }
      if last.category in before then
        before[last.category := Add(before[last.category], last.stat)]
      else
        AbsentCategoryTotal(rows[..|rows| - 1], last.category);
        before[last.category := last.stat]
  }

  /** A category that never occurs has a zero total. */
  lemma {:induction false} AbsentCategoryTotal(rows: seq<FoldRow>, c: int)
    requires c !in Categories(rows)
    ensures CategoryTotal(rows, c) == Zero
  {
    if rows != [] {
      assert Categories(rows[..|rows| - 1]) <= Categories(rows) by {
        assert forall i | 0 <= i < |rows| - 1 :: rows[..|rows| - 1][i] == rows[i];
      }
      assert rows[|rows| - 1].category in Categories(rows);
      AbsentCategoryTotal(rows[..|rows| - 1], c);
    }
  }

  /** Grouping by category ignores fold ids: rows that differ only in their folds group alike. */
  lemma {:induction false} SumByCategoryIgnoresFolds(rows: seq<FoldRow>, other: seq<FoldRow>)
    requires |rows| == |other|
    requires forall i | 0 <= i < |rows| :: rows[i].category == other[i].category && rows[i].stat == other[i].stat
    ensures SumByCategory(rows) == SumByCategory(other)
  {
    if rows != [] {
      SumByCategoryIgnoresFolds(rows[..|rows| - 1], other[..|other| - 1]);
    }
  }

  /** Grouping a concatenation adds the totals of its parts, so partial sums combine in any order. */
  lemma {:induction false} CategoryTotalAppend(a: seq<FoldRow>, b: seq<FoldRow>, c: int)
    ensures CategoryTotal(a + b, c) == Add(CategoryTotal(a, c), CategoryTotal(b, c))
    decreases |b|
  {
    if b == [] {
      assert a + b == a;
    } else {
      assert (a + b)[..|a + b| - 1] == a + b[..|b| - 1];
      CategoryTotalAppend(a, b[..|b| - 1], c);
    }
  }

  /**
   * `TargetEncoder.groupingIgnoringFoldColumn(foldColumn, frame, teColumn)`: regroups a
   * fold-partitioned frame by category alone. A frame that has no column named `foldColumn`
   * cannot be regrouped.
   */
  function GroupingIgnoringFoldColumn(foldColumn: string, frame: EncodingFrame): (r: Result<EncodingFrame>)
    ensures r.Success? <==> frame.FoldFrame? && frame.foldColumn == foldColumn
    ensures r.Success? ==> r.value.CategoryFrame? && r.value.cardinality == frame.cardinality
    ensures r.Success? ==> forall c :: c in r.value.stats <==> c in Categories(frame.rows)
    ensures r.Success? ==> forall c | c in r.value.stats :: r.value.stats[c] == CategoryTotal(frame.rows, c)
  {
    match frame
    case FoldFrame(cardinality, column, rows) =>
      if column == foldColumn then Success(CategoryFrame(cardinality, SumByCategory(rows)))
      else Failure(ColumnNotFound(foldColumn))
    case CategoryFrame(_, _) => Failure(ColumnNotFound(foldColumn))
  }

  /** The category map of fold rows read one by one into a hash map: the last row of a category wins. */
  function LastPerCategory(rows: seq<FoldRow>): (m: map<int, Stat>)
    ensures m.Keys == Categories(rows)
  {
    if rows == [] then map[]
    else
      var last := rows[|rows| - 1];
      assert Categories(rows) == Categories(rows[..|rows| - 1]) + {last.category} by {
        assert forall i | 0 <= i < |rows| - 1 :: rows[..|rows| - 1][i] == rows[i];
      }
      LastPerCategory(rows[..|rows| - 1])[last.category := last.stat]
  }

  /** The `EncodingMap` (category id -> [numerator, denominator]) read from one frame. */
  function ToEncodingMap(frame: EncodingFrame): map<int, Stat> {
    match frame
    case CategoryFrame(_, stats) => stats
    case FoldFrame(_, _, rows) => LastPerCategory(rows)
  }

  /** `TargetEncoderFrameHelper.convertEncodingMapFromFrameToMap`: every column's frame as an integer map. */
  function ConvertEncodingMapFromFrameToMap(frames: map<string, EncodingFrame>): (m: map<string, map<int, Stat>>)
    ensures m.Keys == frames.Keys
    ensures forall c | c in frames && frames[c].CategoryFrame? :: m[c] == frames[c].stats
  {
    map c | c in frames :: ToEncodingMap(frames[c])
  }

  /** The amount of data a frame still holds (stands for `Frame.byteSize`). */
  function ByteSize(frame: EncodingFrame): nat {
    match frame
    case FoldFrame(_, _, rows) => |rows|
    case CategoryFrame(_, stats) => |stats|
  }

  /** `Frame.delete`: the frame keeps its shape and loses all of its data. */
  function Deleted(frame: EncodingFrame): (r: EncodingFrame)
    ensures ByteSize(r) == 0
    ensures r.cardinality == frame.cardinality && r.FoldFrame? == frame.FoldFrame?
  {
    match frame
    case FoldFrame(cardinality, column, _) => FoldFrame(cardinality, column, [])
    case CategoryFrame(cardinality, _) => CategoryFrame(cardinality, map[])
  }
}

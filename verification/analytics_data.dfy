/**
 * The two pure helpers of the analytics data service: `getUserList`, a page of
 * the user table cut with JavaScript's `Array.prototype.slice`, and
 * `convertToCSV`, which writes rows of key/value records as comma-separated text.
 */
module AnalyticsData {
  import opened Wrappers
  import opened Decimal

  // ---------------------------------------------------------------------------
  // Pagination
  // ---------------------------------------------------------------------------

  /** A row of the user table (the two dates are left out). */
  datatype UserData = UserData(id: string, name: string, email: string, region: string, status: string)

  /** A `slice` index resolved against a length: negative counts from the end, then clamped to [0, len]. */
  function ResolveIndex(i: int, len: nat): (r: nat)
    ensures r <= len
    ensures 0 <= i <= len ==> r == i
    ensures i > len ==> r == len
  {
    if i < 0 then (if len + i < 0 then 0 else len + i)
    else if i > len then len
    else i
  }

  /** `s.slice(start, end)`. */
  function Slice<T>(s: seq<T>, start: int, end: int): (r: seq<T>)
    ensures |r| <= |s|
  {
    var from, to := ResolveIndex(start, |s|), ResolveIndex(end, |s|);
    if from < to then s[from..to] else []
  }

  /** The three users of the table. */
  function MockUsers(): seq<UserData> {
    [ UserData("1", "John Doe", "john@company.com", "North America", "active"),
      UserData("2", "Jane Smith", "jane@tech.co", "Europe", "active"),
      UserData("3", "Bob Johnson", "bob@startup.io", "Asia", "inactive") ]
  }

  /** `getUserList(page, limit)` over any table: `slice((page - 1) * limit, page * limit)`. */
  function Page<T>(s: seq<T>, page: int, limit: int): seq<T> {
    Slice(s, (page - 1) * limit, page * limit)
  }

  /** `getUserList(page = 1, limit = 10)`. */
  function GetUserList(page: int := 1, limit: int := 10): seq<UserData> {
    Page(MockUsers(), page, limit)
  }

  /** The smaller of `a` and `b`. */
  function Min(a: int, b: int): int {
    if a < b then a else b
  }

  /**
   * For a page from 1 on and a non-negative limit, the page holds, in order, the
   * elements with index in [(page - 1) * limit, page * limit) that exist, and so
   * at most `limit` of them.
   */
  lemma PageWindow<T>(s: seq<T>, page: int, limit: int)
    requires page >= 1 && limit >= 0
    ensures var r := Page(s, page, limit);
      var lo := (page - 1) * limit;
      && |r| <= limit
      && |r| == (if lo < |s| then Min(page * limit, |s|) - lo else 0)
      && forall i :: 0 <= i < |r| ==> r[i] == s[lo + i]
  {
    var lo, hi := (page - 1) * limit, page * limit;
    assert 0 <= lo <= hi && hi - lo == limit by {
      assert (page - 1) * limit >= 0;
    }
  }

  /** Pages 1 to n, one after the other, are the first n * limit elements (as many as there are). */
  lemma {:induction false} PagesCover<T>(s: seq<T>, n: nat, limit: nat)
    ensures Pages(s, n, limit) == s[..Min(n * limit, |s|)]
  {
    if n > 0 {
      PagesCover(s, n - 1, limit);
      PageWindow(s, n, limit);
      var lo := (n - 1) * limit;
      var r := Page(s, n, limit);
      assert n * limit == lo + limit;
      if lo < |s| {
        assert s[..Min(n * limit, |s|)] == s[..lo] + r;
      } else {
        assert r == [];
      }
    }
  }

  /** Pages 1 to n, concatenated. */
  function Pages<T>(s: seq<T>, n: nat, limit: int): seq<T> {
    if n == 0 then [] else Pages(s, n - 1, limit) + Page(s, n, limit)
  }

  /** With the default page and limit every user of the table is listed. */
  lemma DefaultListsAll()
    ensures GetUserList() == MockUsers()
  {
    assert MockUsers()[0..3] == MockUsers();
  }

  // ---------------------------------------------------------------------------
  // CSV
  // ---------------------------------------------------------------------------

  /** A value of a record: a string, a number, a boolean, or null/undefined. */
  datatype Value = Str(s: string) | Num(n: int) | Bool(b: bool) | Null

  /** A record, its keys in `Object.keys` order. */
  type Row = seq<(string, Value)>

  /** The keys of a record, in order. */
  function Keys(row: Row): seq<string> {
    seq(|row|, i requires 0 <= i < |row| => row[i].0)
  }

  /** `row[key]`: the value under `key`, or `None` for a missing key. */
  function Lookup(row: Row, key: string): Option<Value> {
    if row == [] then None else if row[0].0 == key then Some(row[0].1) else Lookup(row[1..], key)
  }

  /**
   * The text of a cell: a string in double quotes, unescaped; another value as
   * `join` renders it, null, undefined and a missing key as nothing.
   */
  function Cell(v: Option<Value>): (c: string)
    ensures v.Some? && v.value.Str? ==> c == "\"" + v.value.s + "\""
    ensures v.None? || v == Some(Null) ==> c == ""
    ensures v.Some? && (v.value.Num? || v.value.Bool?) ==> |c| > 0 && c[0] != '"' && c[|c| - 1] != '"'
  {
    match v
    case None => ""
    case Some(Null) => ""
    case Some(Str(s)) => "\"" + s + "\""
    case Some(Num(n)) => IntToString(n)
    case Some(Bool(b)) => if b then "true" else "false"
  }

  /** `parts.join(sep)`. */
  function Join(parts: seq<string>, sep: char): string {
    if parts == [] then "" else if |parts| == 1 then parts[0] else parts[0] + [sep] + Join(parts[1..], sep)
  }

  /** `s.split(sep)` for a one-character separator: the pieces between separators, at least one. */
  function Split(s: string, sep: char): (parts: seq<string>)
    ensures |parts| > 0
    decreases |s|
  {
    if sep !in s then [s]
    else
      var i := IndexOfChar(s, sep);
      [s[..i]] + Split(s[i + 1..], sep)
  }

  /** The first position of `c` in `s`. */
  function IndexOfChar(s: string, c: char): (i: nat)
    requires c in s
    ensures i < |s| && s[i] == c && c !in s[..i]
  {
    if s[0] == c then 0 else 1 + IndexOfChar(s[1..], c)
  }

  /** Splitting what was joined gives the parts back, when no part holds the separator. */
  lemma {:induction false} SplitJoin(parts: seq<string>, sep: char)
    requires |parts| > 0 && forall i :: 0 <= i < |parts| ==> sep !in parts[i]
    ensures Split(Join(parts, sep), sep) == parts
  {
    if |parts| > 1 {
      var s := Join(parts, sep);
      var rest := Join(parts[1..], sep);
      assert s == parts[0] + [sep] + rest;
      assert sep in s by {
        assert s[|parts[0]|] == sep;
      }
      var i := IndexOfChar(s, sep);
      assert i == |parts[0]|;
      assert s[..i] == parts[0];
      assert s[i + 1..] == rest;
      SplitJoin(parts[1..], sep);
    }
  }

  /** The cells of a record under the given headers. */
  function Cells(row: Row, headers: seq<string>): (cells: seq<string>)
    ensures |cells| == |headers|
  {
    seq(|headers|, j requires 0 <= j < |headers| => Cell(Lookup(row, headers[j])))
  }

  /** The lines of the CSV text: the header line, then one line per record. */
  function CsvLines(data: seq<Row>): (lines: seq<string>)
    requires |data| > 0
    ensures |lines| == |data| + 1
  {
    var headers := Keys(data[0]);
    [Join(headers, ',')] + seq(|data|, i requires 0 <= i < |data| => Join(Cells(data[i], headers), ','))
  }

  /** `convertToCSV(data)`. */
  function ConvertToCsv(data: seq<Row>): (csv: string)
    ensures data == [] ==> csv == ""
  {
    if data == [] then "" else Join(CsvLines(data), '\n')
  }

  /** No key and no cell text of any record holds `c`. */
  predicate FreeOf(data: seq<Row>, c: char) {
    forall i, j :: 0 <= i < |data| && 0 <= j < |data[i]| ==> c !in data[i][j].0 && c !in Cell(Some(data[i][j].1))
  }

  /** A cell of a record is the empty cell or one of its values' cells. */
  lemma {:induction false} LookupCellFree(row: Row, key: string, c: char)
    requires forall j :: 0 <= j < |row| ==> c !in Cell(Some(row[j].1))
    ensures c !in Cell(Lookup(row, key))
  {
    if row != [] && row[0].0 != key {
      LookupCellFree(row[1..], key, c);
    }
  }

  /**
   * When no key or cell holds a newline, the text has exactly one line more than
   * there are records: the header line and then each record's line, in order.
   */
  lemma CsvLineCount(data: seq<Row>)
    requires |data| > 0 && FreeOf(data, '\n')
    ensures Split(ConvertToCsv(data), '\n') == CsvLines(data)
    ensures |Split(ConvertToCsv(data), '\n')| == |data| + 1
  {
    var lines := CsvLines(data);
    forall i | 0 <= i < |lines|
      ensures '\n' !in lines[i]
    {
      CsvLineFree(data, i);
    }
    SplitJoin(lines, '\n');
  }

  /** A line of the text holds no newline when no key or cell does. */
  lemma CsvLineFree(data: seq<Row>, i: int)
    requires |data| > 0 && FreeOf(data, '\n') && 0 <= i <= |data|
    ensures '\n' !in CsvLines(data)[i]
  {
    var headers := Keys(data[0]);
    if i == 0 {
      JoinFree(headers, ',', '\n');
      assert CsvLines(data)[0] == Join(headers, ',');
    } else {
      RecordLineFree(data[i - 1], headers, '\n');
      assert CsvLines(data)[i] == Join(Cells(data[i - 1], headers), ',');
    }
  }

  /** The line of a record holds no `c` other than the comma when none of its keys' values' cells does. */
  lemma RecordLineFree(row: Row, headers: seq<string>, c: char)
    requires c != ',' && forall j :: 0 <= j < |row| ==> c !in Cell(Some(row[j].1))
    ensures c !in Join(Cells(row, headers), ',')
  {
    var cells := Cells(row, headers);
    forall j | 0 <= j < |cells|
      ensures c !in cells[j]
    {
      LookupCellFree(row, headers[j], c);
    }
    JoinFree(cells, ',', c);
  }

  /**
   * When the first record has a key and no key or cell holds a comma, each record's line splits into one
   * cell per header, in the first record's key order: the quoted string, the
   * rendered value, or nothing for a missing key.
   */
  lemma CsvCellsOfLine(data: seq<Row>, i: int)
    requires |data| > 0 && |data[0]| > 0 && FreeOf(data, ',') && 0 <= i < |data|
    ensures var headers := Keys(data[0]);
      var cells := Split(CsvLines(data)[i + 1], ',');
      && |cells| == |headers|
      && forall j :: 0 <= j < |headers| ==> cells[j] == Cell(Lookup(data[i], headers[j]))
  {
    var headers := Keys(data[0]);
    var cells := Cells(data[i], headers);
    forall j | 0 <= j < |cells|
      ensures ',' !in cells[j]
    {
      LookupCellFree(data[i], headers[j], ',');
    }
    SplitJoin(cells, ',');
  }

  /** Joining parts free of `c` with a separator other than `c` gives a text free of `c`. */
  lemma {:induction false} JoinFree(parts: seq<string>, sep: char, c: char)
    requires sep != c && forall i :: 0 <= i < |parts| ==> c !in parts[i]
    ensures c !in Join(parts, sep)
  {
    if |parts| > 1 {
      JoinFree(parts[1..], sep, c);
    }
  }
}

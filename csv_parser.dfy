/**
 * `CSVParserService.parsePositionData`: turns the named rows of a positions CSV file into
 * `PositionData` records. Splitting the file into rows and columns is done by the CSV
 * library; here a row is the map from column header to field text.
 */
module CsvParser {
  import opened Wrappers
  import opened SwiftInt

  type Row = map<string, string>

  /** The arguments `PositionData.init` receives; the two times are still raw text. */
  datatype PositionData = PositionData(
    marketId: string,
    pnlRatio: int,
    pnl: int,
    cost: int,
    isMarketLaunched: bool,
    maxProfitRatio: int,
    maxProfit: int,
    maxLossRatio: int,
    maxLoss: int,
    createTime: string,
    updateTime: string)

  /** `row[key]`: nil for a column the file does not have. */
  function Field(row: Row, key: string): (r: Option<string>)
    ensures r.Some? <==> key in row
  {
    if key in row then Some(row[key]) else None
  }

  /** `Int(row[key] ?? "0") ?? 0`: a missing or non-integer field reads as 0. */
  function IntField(row: Row, key: string): (n: int)
    ensures IsInt64(n)
    ensures key !in row ==> n == 0
  {
    ParseInt(Field(row, key).GetOr("0")).GetOr(0)
  }

  /** The record built from one row. */
  function RowToPosition(row: Row): (p: PositionData)
    ensures p.isMarketLaunched <==> Field(row, "is_market_launched") == Some("true")
    ensures p.marketId == (if "market_id" in row then row["market_id"] else "")
    ensures p.createTime == (if "create_time" in row then row["create_time"] else "")
    ensures p.updateTime == (if "update_time" in row then row["update_time"] else "")
  {
    PositionData(
      Field(row, "market_id").GetOr(""),
      IntField(row, "pnl_ratio"),
      IntField(row, "pnl"),
      IntField(row, "cost"),
      Field(row, "is_market_launched").GetOr("false") == "true",
      IntField(row, "max_profit_ratio"),
      IntField(row, "max_profit"),
      IntField(row, "max_loss_ratio"),
      IntField(row, "max_loss"),
      Field(row, "create_time").GetOr(""),
      Field(row, "update_time").GetOr(""))
  }

  /** The loop over the rows: one record per row, in row order. */
  method ParsePositionData(rows: seq<Row>) returns (positions: seq<PositionData>)
    ensures |positions| == |rows|
    ensures forall i :: 0 <= i < |rows| ==> positions[i] == RowToPosition(rows[i])
  {
    positions := [];
    for i := 0 to |rows|
      invariant |positions| == i
      invariant forall k :: 0 <= k < i ==> positions[k] == RowToPosition(rows[k])
    {
      var row := rows[i];
      var marketId := Field(row, "market_id").GetOr("");
      var pnlRatio := ParseInt(Field(row, "pnl_ratio").GetOr("0")).GetOr(0);
      var pnl := ParseInt(Field(row, "pnl").GetOr("0")).GetOr(0);
      var cost := ParseInt(Field(row, "cost").GetOr("0")).GetOr(0);
      var isMarketLaunched := Field(row, "is_market_launched").GetOr("false") == "true";
      var maxProfitRatio := ParseInt(Field(row, "max_profit_ratio").GetOr("0")).GetOr(0);
      var maxProfit := ParseInt(Field(row, "max_profit").GetOr("0")).GetOr(0);
      var maxLossRatio := ParseInt(Field(row, "max_loss_ratio").GetOr("0")).GetOr(0);
      var maxLoss := ParseInt(Field(row, "max_loss").GetOr("0")).GetOr(0);
      var createTime := Field(row, "create_time").GetOr("");
      var updateTime := Field(row, "update_time").GetOr("");
      var position := PositionData(marketId, pnlRatio, pnl, cost, isMarketLaunched,
        maxProfitRatio, maxProfit, maxLossRatio, maxLoss, createTime, updateTime);
      positions := positions + [position];
    }
  }

  /** The integer columns of the record. */
  function IntColumns(p: PositionData): seq<int> {
    [p.pnlRatio, p.pnl, p.cost, p.maxProfitRatio, p.maxProfit, p.maxLossRatio, p.maxLoss]
  }

  const IntColumnNames: seq<string> :=
    ["pnl_ratio", "pnl", "cost", "max_profit_ratio", "max_profit", "max_loss_ratio", "max_loss"]

  /** A row with none of the columns gives the all-default record. */
  lemma EmptyRowDefaults()
    ensures RowToPosition(map[]) == PositionData("", 0, 0, 0, false, 0, 0, 0, 0, "", "")
  {
  }

  /** Integer columns are taken verbatim, with no scaling: a field holding the decimal
      text of a 64-bit integer yields that integer. */
  lemma IntColumnVerbatim(row: Row, c: nat, n: int)
    requires c < |IntColumnNames| && IsInt64(n)
    requires IntColumnNames[c] in row && row[IntColumnNames[c]] == IntToString(n)
    ensures IntColumns(RowToPosition(row))[c] == n
  {
    ParseIntRoundTrip(n);
  }

  /** A present integer column whose text is not an integer (a stray character such as a
      decimal point or a space) reads as 0, as does a missing one. */
  lemma IntColumnMalformed(row: Row, c: nat, i: nat)
    requires c < |IntColumnNames|
    requires IntColumnNames[c] in row
    requires i < |row[IntColumnNames[c]]| && !IsDigit(row[IntColumnNames[c]][i])
    requires i > 0 || (row[IntColumnNames[c]][i] != '-' && row[IntColumnNames[c]][i] != '+')
    ensures IntColumns(RowToPosition(row))[c] == 0
  {
    ParseIntRejectsStray(row[IntColumnNames[c]], i);
  }

  /** A present integer column that is empty or holds a lone sign reads as 0. */
  lemma IntColumnEmptyOrSign(row: Row, c: nat)
    requires c < |IntColumnNames|
    requires IntColumnNames[c] in row && row[IntColumnNames[c]] in {"", "-", "+"}
    ensures IntColumns(RowToPosition(row))[c] == 0
  {
    ParseIntRejectsEmpty();
  }

  /** A present integer column holding digits beyond the 64-bit range, with or without a
      sign, reads as 0. */
  lemma IntColumnOutOfRange(row: Row, c: nat, sign: string, digits: string)
    requires c < |IntColumnNames| && sign in {"", "-", "+"}
    requires digits != "" && AllDigits(digits)
    requires if sign == "-" then DigitsValue(digits) > -INT64_MIN else DigitsValue(digits) > INT64_MAX
    requires IntColumnNames[c] in row && row[IntColumnNames[c]] == sign + digits
    ensures IntColumns(RowToPosition(row))[c] == 0
  {
    var field := row[IntColumnNames[c]];
    ParseIntRejectsOutOfRange(digits);
    assert ParseInt(field) == None by {
      if sign == "" {
        assert field == digits;
      }
    }
    IntColumnIsField(row, c);
  }

  /** Each integer column of the record is `IntField` of its named column. */
  lemma IntColumnIsField(row: Row, c: nat)
    requires c < |IntColumnNames|
    ensures IntColumns(RowToPosition(row))[c] == IntField(row, IntColumnNames[c])
  {
  }
}

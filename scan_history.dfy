/** The scan-history store of `useScanHistory` (src/hooks/useScanHistory.ts): the
    signed-in user's recent scans, newest first, kept in step with the
    `scan_history` table. The database and the auth session are inputs: each
    method is given the outcome of its query. */
module ScanHistory {
  import opened Types

  /** `getVerdictFromScore`: the four bands of the score. */
  function VerdictFromScore(score: int): (v: Verdict)
    ensures v == Great <==> 80 <= score
    ensures v == Good <==> 60 <= score < 80
    ensures v == CautionVerdict <==> 40 <= score < 60
    ensures v == Avoid <==> score < 40
  {
    if score >= 80 then Great
    else if score >= 60 then Good
    else if score >= 40 then CautionVerdict
    else Avoid
  }

  /** The verdicts from worst to best. */
  function VerdictRank(v: Verdict): nat {
    match v
    case Avoid => 0
    case CautionVerdict => 1
    case Good => 2
    case Great => 3
  }

  /** A higher score never gets a worse verdict. */
  lemma VerdictMonotone(a: int, b: int)
    requires a <= b
    ensures VerdictRank(VerdictFromScore(a)) <= VerdictRank(VerdictFromScore(b))
  {
  }

  const HistoryCap := 50

  /** `[newItem, ...prev].slice(0, 50)` */
  function PrependCapped(item: ScanHistoryItem, prev: seq<ScanHistoryItem>): seq<ScanHistoryItem> {
    var all := [item] + prev;
    if |all| <= HistoryCap then all else all[..HistoryCap]
  }

  /** The new item comes first, the previous items follow in order, and at
      most fifty are kept; only the oldest ones are dropped. */
  lemma PrependCappedShape(item: ScanHistoryItem, prev: seq<ScanHistoryItem>)
    ensures var r := PrependCapped(item, prev);
      |r| == (if |prev| < HistoryCap then |prev| + 1 else HistoryCap)
      && r[0] == item
      && (forall k :: 1 <= k < |r| ==> r[k] == prev[k - 1])
  {
  }

  /** `prev.filter(item => item.id !== id)` */
  function RemoveById(items: seq<ScanHistoryItem>, id: string): (r: seq<ScanHistoryItem>)
    ensures forall x :: x in r <==> x in items && x.id != id
    ensures |r| <= |items|
    decreases |items|
  {
    if items == [] then []
    else if items[0].id == id then RemoveById(items[1..], id)
    else [items[0]] + RemoveById(items[1..], id)
  }

  /** The filter commutes with concatenation, so the kept items stay in order. */
  lemma {:induction false} RemoveByIdAppend(a: seq<ScanHistoryItem>, b: seq<ScanHistoryItem>, id: string)
    ensures RemoveById(a + b, id) == RemoveById(a, id) + RemoveById(b, id)
    decreases |a|
  {
    if a == [] {
      assert a + b == b;
    } else {
      assert (a + b)[0] == a[0];
      assert (a + b)[1..] == a[1..] + b;
      RemoveByIdAppend(a[1..], b, id);
    }
  }

  /** A list without that id is left as it is. */
  lemma {:induction false} RemoveByIdAbsent(items: seq<ScanHistoryItem>, id: string)
    requires forall k :: 0 <= k < |items| ==> items[k].id != id
    ensures RemoveById(items, id) == items
    decreases |items|
  {
    if items != [] {
      RemoveByIdAbsent(items[1..], id);
    }
  }

  /** One row of `scan_history` as the query returns it. */
  datatype Row = Row(
    id: string,
    productName: string,
    ingredients: seq<string>,
    healthScore: int,
    scannedAt: string)

  /** `{ name, level: 'safe', description: '', reasoning: '' }` */
  function SafeIngredient(name: string): IngredientAnalysis {
    IngredientAnalysis(name, Safe, "", "", None, None)
  }

  function SafeIngredients(names: seq<string>): (r: seq<IngredientAnalysis>)
    ensures |r| == |names|
    ensures forall k :: 0 <= k < |names| ==> r[k] == SafeIngredient(names[k])
    decreases |names|
  {
    if names == [] then [] else [SafeIngredient(names[0])] + SafeIngredients(names[1..])
  }

  /** The simplified item a fetched row becomes; `dateText` is the row's
      `scanned_at` as `toLocaleDateString` renders it. */
  function RowToItem(row: Row, dateText: string): ScanHistoryItem {
    ScanHistoryItem(
      row.id, row.productName,
      AnalysisResult(row.healthScore, VerdictFromScore(row.healthScore), "Scanned on " + dateText,
                     SafeIngredients(row.ingredients), []),
      row.scannedAt)
  }

  function RowsToItems(rows: seq<Row>, dateText: string -> string): (r: seq<ScanHistoryItem>)
    ensures |r| == |rows|
    ensures forall k :: 0 <= k < |rows| ==> r[k] == RowToItem(rows[k], dateText(rows[k].scannedAt))
    decreases |rows|
  {
    if rows == [] then []
    else [RowToItem(rows[0], dateText(rows[0].scannedAt))] + RowsToItems(rows[1..], dateText)
  }

  /** The names of the analysed ingredients, `result.ingredients.map(i => i.name)`. */
  function Names(xs: seq<IngredientAnalysis>): (r: seq<string>)
    ensures |r| == |xs|
    ensures forall k :: 0 <= k < |xs| ==> r[k] == xs[k].name
    decreases |xs|
  {
    if xs == [] then [] else [xs[0].name] + Names(xs[1..])
  }

  function LowerChar(c: char): char {
    if 'A' <= c <= 'Z' then (c as int + 32) as char else c
  }

  /** `toLowerCase` on the ASCII letters, which is all a verdict name holds. */
  function LowerAscii(s: string): (r: string)
    ensures |r| == |s|
    ensures forall k :: 0 <= k < |s| ==> r[k] == LowerChar(s[k])
    decreases |s|
  {
    if s == [] then [] else [LowerChar(s[0])] + LowerAscii(s[1..])
  }

  /** `verdict.toLowerCase()` */
  function RiskLevel(v: Verdict): string {
    LowerAscii(VerdictName(v))
  }

  /** The four stored risk levels. */
  lemma RiskLevelValues(v: Verdict)
    ensures RiskLevel(v) == match v
      case Great => "great"
      case Good => "good"
      case CautionVerdict => "caution"
      case Avoid => "avoid"
  {
    match v {
      case Great => assert RiskLevel(v) == "great";
      case Good => assert RiskLevel(v) == "good";
      case CautionVerdict => assert RiskLevel(v) == "caution";
      case Avoid => assert RiskLevel(v) == "avoid";
    }
  }

  /** The stored risk level tells the four verdicts apart. */
  lemma RiskLevelDistinct(v: Verdict, w: Verdict)
    ensures RiskLevel(v) == RiskLevel(w) ==> v == w
  {
    RiskLevelValues(v);
    RiskLevelValues(w);
  }

  /** The object `addScan` inserts. */
  datatype Insert = Insert(
    userId: string,
    productName: string,
    ingredients: seq<string>,
    healthScore: int,
    riskLevel: string)

  function InsertFor(userId: string, inputLabel: string, result: AnalysisResult): Insert {
    Insert(userId, inputLabel, Names(result.ingredients), result.overallScore, RiskLevel(result.verdict))
  }

  /** A saved scan, read back on the next fetch, has the same label, score and
      ingredient names; its verdict is the one its score's band gives, which
      agrees with the saved verdict exactly when that verdict matched the band. */
  lemma SavedScanReadsBack(userId: string, inputLabel: string, result: AnalysisResult,
                           id: string, scannedAt: string, dateText: string)
    ensures var ins := InsertFor(userId, inputLabel, result);
      var item := RowToItem(Row(id, ins.productName, ins.ingredients, ins.healthScore, scannedAt), dateText);
      item.inputLabel == inputLabel
      && item.result.overallScore == result.overallScore
      && Names(item.result.ingredients) == Names(result.ingredients)
      && (item.result.verdict == result.verdict <==> VerdictFromScore(result.overallScore) == result.verdict)
      && forall k :: 0 <= k < |item.result.ingredients| ==> item.result.ingredients[k].level == Safe
  {
    var names := Names(result.ingredients);
    assert Names(SafeIngredients(names)) == names;
  }

  /** How a select query ends: an error, or `data` (possibly `null`). */
  datatype Fetched = FetchError | FetchedRows(data: Option<seq<Row>>)

  /** How the insert-and-select ends: an error, or the new row's `id` and
      `scanned_at` (possibly `null`). */
  datatype Saved = SaveError | SavedRow(data: Option<(string, string)>)

  class Store {
    /** The signed-in user's id, if any. */
    var user: Option<string>
    var history: seq<ScanHistoryItem>
    var isLoaded: bool

    constructor (user: Option<string>)
      ensures this.user == user && history == [] && !isLoaded
    {
      this.user := user;
      history := [];
      isLoaded := false;
    }

    /** The effect that runs when the user changes (lines 12-61). */
    method Load(fetched: Fetched, dateText: string -> string)
      modifies this
      ensures user == old(user) && isLoaded
      ensures user.None? ==> history == []
      ensures user.Some? && fetched.FetchedRows? && fetched.data.Some? ==> history == RowsToItems(fetched.data.value, dateText)
      ensures user.Some? && !(fetched.FetchedRows? && fetched.data.Some?) ==> history == old(history)
    {
      if user.None? {
        history := [];
        isLoaded := true;
        return;
      }
      if fetched.FetchError? {
        isLoaded := true;
        return;
      }
      if fetched.data.Some? {
        history := RowsToItems(fetched.data.value, dateText);
      }
      isLoaded := true;
    }

    /** `addScan`: returns the row it asks the database to insert, if any. */
    method AddScan(inputLabel: string, result: AnalysisResult, saved: Saved) returns (inserted: Option<Insert>)
      modifies this
      ensures user == old(user) && isLoaded == old(isLoaded)
      ensures user.None? ==> inserted == None
      ensures user.Some? ==> inserted == Some(InsertFor(user.value, inputLabel, result))
      ensures user.Some? && saved.SavedRow? && saved.data.Some? ==>
        history == PrependCapped(ScanHistoryItem(saved.data.value.0, inputLabel, result, saved.data.value.1), old(history))
      ensures !(user.Some? && saved.SavedRow? && saved.data.Some?) ==> history == old(history)
    {
      if user.None? {
        return None;
      }
      inserted := Some(InsertFor(user.value, inputLabel, result));
      if saved.SaveError? {
        return;
      }
      if saved.data.Some? {
        var item := ScanHistoryItem(saved.data.value.0, inputLabel, result, saved.data.value.1);
        history := PrependCapped(item, history);
      }
    }

    /** `removeScan(id)`: `deleted` is whether the delete succeeded; returns
        whether a delete was asked for. */
    method RemoveScan(id: string, deleted: bool) returns (asked: bool)
      modifies this
      ensures user == old(user) && isLoaded == old(isLoaded)
      ensures asked <==> user.Some?
      ensures user.Some? && deleted ==> history == RemoveById(old(history), id)
      ensures !(user.Some? && deleted) ==> history == old(history)
    {
      if user.None? {
        return false;
      }
      asked := true;
      if !deleted {
        return;
      }
      history := RemoveById(history, id);
    }

    /** `clearHistory`. */
    method ClearHistory(deleted: bool) returns (asked: bool)
      modifies this
      ensures user == old(user) && isLoaded == old(isLoaded)
      ensures asked <==> user.Some?
      ensures user.Some? && deleted ==> history == []
      ensures !(user.Some? && deleted) ==> history == old(history)
    {
      if user.None? {
        return false;
      }
      asked := true;
      if !deleted {
        return;
      }
      history := [];
    }
  }
}

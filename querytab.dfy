/** The query tab: running the editor's SQL on the selected connection and turning
    the outcome into result tabs, and the commands that replace its tabs or its SQL. */
module QueryTab {
  import opened Wrappers
  import Errors
  import Text
  import opened SqlJs
  import Sqlite

  type TabId = string

  /** A point in time, as the clock reports it. */
  type Time = nat

  datatype Status = Running | Completed | Error

  /** One result tab (QueryResultsPanelProps); fields the source leaves unset are `None`. */
  datatype Tab = Tab(
    id: TabId,
    title: string,
    status: Status,
    startedOn: Time,
    completedOn: Option<Time>,
    columns: Option<seq<string>>,
    values: Option<seq<seq<SqlValue>>>,
    error: Option<string>)

  /** The values one run draws from `generateId` and from the clock: the running tab's id,
      the start time and its printed form, the id and completion time of the extra tab
      for result set `i`, and the time the run finished. */
  datatype Stamps = Stamps(
    runningId: TabId,
    startedOn: Time,
    startedText: string,
    extraId: nat -> TabId,
    extraCompletedOn: nat -> Time,
    completedOn: Time)

  /** `text (k)`, the title of a numbered result. */
  function Numbered(text: string, k: nat): string {
    text + " (" + Text.Decimal(k) + ")"
  }

  /** The tab shown while the query runs. */
  function RunningTab(st: Stamps): Tab {
    Tab(st.runningId, st.startedText, Running, st.startedOn, None, None, None, None)
  }

  /** The running tab once the query produced `results`, at least one of them. */
  function FirstTab(st: Stamps, results: seq<ResultSet>): Tab
    requires 1 <= |results|
  {
    var title := if |results| > 1 then st.startedText + " (1)" else st.startedText;
    Tab(st.runningId, title, Completed, st.startedOn, Some(st.completedOn),
        Some(results[0].columns), Some(results[0].values), None)
  }

  /** The extra tab for result set `i` (`i >= 1`). */
  function ExtraTab(st: Stamps, i: nat, result: ResultSet): Tab {
    Tab(st.extraId(i), Numbered(st.startedText, i + 1), Completed, st.startedOn, Some(st.extraCompletedOn(i)),
        Some(result.columns), Some(result.values), None)
  }

  /** The running tab once the query threw `e`. */
  function ErrorTab(st: Stamps, e: Errors.Error): Tab {
    Tab(st.runningId, st.startedText, Error, st.startedOn, Some(st.completedOn), None, None, Some(Errors.ErrorText(e)))
  }

  /** The extra tabs for result sets 1 to n - 1, in order. */
  function ExtraTabs(st: Stamps, results: seq<ResultSet>): seq<Tab>
    requires 1 <= |results|
  {
    seq(|results| - 1, k requires 0 <= k < |results| - 1 => ExtraTab(st, k + 1, results[k + 1]))
  }

  /** JavaScript's `s.splice(start, deleteCount, ...items)` as the value it leaves in `s`:
      a start past the end means the end, and no more than the rest is deleted. */
  function Splice<T>(s: seq<T>, start: nat, deleteCount: nat, items: seq<T>): seq<T> {
    var from := if start <= |s| then start else |s|;
    var count := if deleteCount <= |s| - from then deleteCount else |s| - from;
    s[..from] + items + s[from + count..]
  }

  /** The tabs a run leaves when it started with `tabs` and `getResults` gave `results`:
      the running tab completed or failed, with the extra tabs behind it, ahead of `tabs`.
      Reading `columns` of the missing first result throws when there is none. */
  function FinalTabs(tabs: seq<Tab>, st: Stamps, results: Result<seq<ResultSet>, Errors.Error>): seq<Tab> {
    match results
    case Failure(e) => [ErrorTab(st, e)] + tabs
    case Success(sets) =>
      if |sets| == 0 then [ErrorTab(st, Errors.TypeError("columns"))] + tabs
      else [FirstTab(st, sets)] + ExtraTabs(st, sets) + tabs
  }

  /** On success with n result sets, the run adds n tabs, one per result set and in their
      order, ahead of the old tabs, which are kept as they were; each is completed and
      shows its result set; with more than one, every title is numbered from 1. */
  lemma SuccessShape(tabs: seq<Tab>, st: Stamps, results: seq<ResultSet>)
    requires 1 <= |results|
    ensures var r, n := FinalTabs(tabs, st, Success(results)), |results|;
      && |r| == n + |tabs|
      && r[n..] == tabs
      && r[0].id == st.runningId
      && (forall i :: 1 <= i < n ==> r[i].id == st.extraId(i))
      && forall i :: 0 <= i < n ==>
           && r[i].status == Completed
           && r[i].columns == Some(results[i].columns)
           && r[i].values == Some(results[i].values)
           && r[i].error == None
           && r[i].title == if n == 1 then st.startedText else Numbered(st.startedText, i + 1)
  {
    var r, n := FinalTabs(tabs, st, Success(results)), |results|;
    var extras := ExtraTabs(st, results);
    assert r == [FirstTab(st, results)] + extras + tabs;
    assert r[n..] == tabs;
    forall i | 0 <= i < n
      ensures r[i] == if i == 0 then FirstTab(st, results) else ExtraTab(st, i, results[i])
    {
      if i > 0 {
        assert r[i] == extras[i - 1];
      }
    }
    assert Text.Decimal(1) == "1";
  }

  /** When the query throws, or gives no result set, the run adds exactly one tab, in the
      error state and carrying the exception's text, ahead of the unchanged old tabs. */
  lemma ErrorShape(tabs: seq<Tab>, st: Stamps, results: Result<seq<ResultSet>, Errors.Error>)
    requires results.Failure? || results.value == []
    ensures var r, e := FinalTabs(tabs, st, results),
                        if results.Failure? then results.error else Errors.TypeError("columns");
      && |r| == 1 + |tabs|
      && r[1..] == tabs
      && r[0].id == st.runningId
      && r[0].title == st.startedText
      && r[0].status == Error
      && r[0].error == Some(Errors.ErrorText(e))
      && r[0].columns == None && r[0].values == None
  {
  }

  /** The loop that splices the extra tab for result set `i` in at index `i`, behind the
      tabs already inserted and ahead of the old ones. */
  method SpliceResultTabs(updated: seq<Tab>, st: Stamps, results: seq<ResultSet>) returns (r: seq<Tab>)
    requires 1 <= |updated|
    requires 1 <= |results|
    ensures r == updated[..1] + ExtraTabs(st, results) + updated[1..]
  {
    r := updated;
    for i := 1 to |results|
      invariant r == updated[..1] + ExtraTabs(st, results[..i]) + updated[1..]
    {
      assert ExtraTabs(st, results[..i + 1]) == ExtraTabs(st, results[..i]) + [ExtraTab(st, i, results[i])];
      r := Splice(r, i, 0, [ExtraTab(st, i, results[i])]);
    }
    assert results[..|results|] == results;
  }

  /** The arguments of a command; only `value`, `tabId` and `tabs` are read here. */
  datatype CommandArgs = CommandArgs(value: string, tabId: Option<TabId>, tabs: seq<Tab>)

  datatype Command = Command(command: string, args: Option<CommandArgs>)

  /** The panel's state: the selected tab, the result tabs and the SQL in the editor. */
  class QueryTab {
    var tabId: Option<TabId>
    var tabs: seq<Tab>
    var sql: string

    constructor (sql: string)
      ensures tabId == None && tabs == [] && this.sql == sql
    {
      tabId := None;
      tabs := [];
      this.sql := sql;
    }

    /** The part of a run before the query is awaited: a running tab is put first, ahead
        of the old tabs in their order, and selected. */
    method ShowRunning(st: Stamps) returns (updated: seq<Tab>)
      modifies this
      ensures updated == [RunningTab(st)] + old(tabs)
      ensures tabs == updated && tabId == Some(st.runningId) && sql == old(sql)
    {
      updated := tabs;
      updated := [RunningTab(st)] + updated;
      tabs := updated;
      tabId := Some(st.runningId);
    }

    /** Runs the editor's SQL on `connection` (absent when none is selected) and shows the
        outcome as result tabs ahead of the old ones; the running tab stays selected. */
    method RunQuery(connection: Sqlite.SqliteDataConnection?, st: Stamps)
      modifies this, connection
      ensures tabId == Some(st.runningId) && sql == old(sql)
      ensures connection == null ==> tabs == FinalTabs(old(tabs), st, Failure(Errors.TypeError("getResults")))
      ensures connection != null ==>
        var execution := connection.engine.exec(old(connection.database), old(sql));
        && tabs == FinalTabs(old(tabs), st, Sqlite.ExecResults(execution))
        && connection.database == execution.next
        && connection.schema == old(connection.schema)
        && connection.executed == old(connection.executed) + [old(sql)]
    {
      var updated := ShowRunning(st);
      var running := RunningTab(st);
      var results: Result<seq<ResultSet>, Errors.Error>;
      if connection == null {
        results := Failure(Errors.TypeError("getResults"));
      } else {
        results := connection.GetResults(sql);
      }
      match results {
        case Failure(e) =>
          running := running.(status := Error, error := Some(Errors.ErrorText(e)));
        case Success(sets) =>
          running := running.(status := Completed);
          if |sets| == 0 {
            running := running.(status := Error, error := Some(Errors.ErrorText(Errors.TypeError("columns"))));
          } else {
            running := running.(columns := Some(sets[0].columns), values := Some(sets[0].values));
            if |sets| > 1 {
              running := running.(title := running.title + " (1)");
              updated := SpliceResultTabs(updated, st, sets);
            }
          }
      }
      running := running.(completedOn := Some(st.completedOn));
      updated := Splice(updated, 0, 1, [running]);
      tabs := updated;
    }

    /** `tabs.changeTabs` replaces the selected tab and the tab list, `editor.changeValue`
        replaces the SQL; without arguments either throws before changing anything, and
        every other command changes nothing. */
    method HandleCommand(command: Command)
      modifies this
      ensures command.command == "editor.changeValue" && command.args.Some? ==>
        sql == command.args.value.value && tabs == old(tabs) && tabId == old(tabId)
      ensures command.command == "tabs.changeTabs" && command.args.Some? ==>
        tabId == command.args.value.tabId && tabs == command.args.value.tabs && sql == old(sql)
      ensures command.args.None? || command.command !in {"editor.changeValue", "tabs.changeTabs"} ==>
        sql == old(sql) && tabs == old(tabs) && tabId == old(tabId)
    {
      match command.command {
        case "editor.changeValue" =>
          if command.args.Some? {
            sql := command.args.value.value;
          }
        case "tabs.changeTabs" =>
          if command.args.Some? {
            tabId := command.args.value.tabId;
            tabs := command.args.value.tabs;
          }
        case _ =>
      }
    }
  }
}

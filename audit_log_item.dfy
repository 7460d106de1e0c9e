/** The display rules of one audit entry: the action sentence, the
    relative time, and the block listing what changed. The JSON payloads
    are taken already parsed, as the snapshots the repository writes. */
module AuditLogItem {
  import opened Wrappers
  import opened Strings
  import opened Time
  import opened TodoRepository

  /** `getActionText(action, oldValues, newValues)` */
  function GetActionText(action: string, oldValues: Option<Snapshot>, newValues: Option<Snapshot>): (r: string)
    ensures action == "CREATE" ==> r == "TODOを作成しました"
    ensures action == "UPDATE" ==> r == "TODOを更新しました"
    ensures action == "DELETE" ==> r == "TODOを削除しました"
    ensures action !in {"CREATE", "UPDATE", "TOGGLE", "DELETE"} ==> r == "不明な操作"
    ensures action == "TOGGLE" ==>
      r == (if oldValues.Some? && !oldValues.value.doneFlag && newValues.Some? && newValues.value.doneFlag
            then "完了にしました"
            else if oldValues.Some? && oldValues.value.doneFlag && newValues.Some? && !newValues.value.doneFlag
            then "未完了に戻しました"
            else "ステータスを切り替えました")
  {
    if action == "CREATE" then "TODOを作成しました"
    else if action == "UPDATE" then "TODOを更新しました"
    else if action == "TOGGLE" then
      if oldValues.Some? && oldValues.value.doneFlag == false && newValues.Some? && newValues.value.doneFlag == true then
        "完了にしました"
      else if oldValues.Some? && oldValues.value.doneFlag == true && newValues.Some? && newValues.value.doneFlag == false then
        "未完了に戻しました"
      else
        "ステータスを切り替えました"
    else if action == "DELETE" then "TODOを削除しました"
    else "不明な操作"
  }

  /** `formatDate`, given the whole minutes elapsed
      (`Math.floor((now - date) / 60000)`), which may be negative. */
  function FormatDate(minutes: int): (r: string)
    ensures minutes < 1 ==> r == "たった今"
    ensures 1 <= minutes < 60 ==> r == NatToString(minutes) + "分前"
    ensures 60 <= minutes < 1440 ==>
      exists h: nat :: 1 <= h < 24 && h * 60 <= minutes < (h + 1) * 60 && r == NatToString(h) + "時間前"
    ensures 1440 <= minutes ==>
      exists d: nat :: 1 <= d && d * 1440 <= minutes < (d + 1) * 1440 && r == NatToString(d) + "日前"
  {
    if minutes < 1 then "たった今"
    else if minutes < 60 then NatToString(minutes) + "分前"
    else if minutes < 1440 then NatToString(minutes / 60) + "時間前"
    else NatToString(minutes / 1440) + "日前"
  }

  /** `snapshot.title`: absent on a `{done_flag}` snapshot. */
  function TitleOf(s: Snapshot): Option<string> {
    match s
    case Fields(title, _, _) => Some(title)
    case DoneFlagOnly(_) => None
  }

  /** `snapshot.due_date`: `null` when cleared, absent on a `{done_flag}`
      snapshot. */
  function DueDateOf(s: Snapshot): Nullable<string> {
    match s
    case Fields(_, dueDate, _) => if dueDate.Some? then Present(dueDate.value) else Null
    case DoneFlagOnly(_) => Undefined
  }

  /** A title as a template literal prints it. */
  function TitleText(t: Option<string>): string {
    if t.Some? then t.value else "undefined"
  }

  /** `due_date || '未設定'`: a missing, null or empty date shows as unset. */
  function DueDateText(d: Nullable<string>): (r: string)
    ensures (d.Present? && d.value != "") ==> r == d.value
    ensures !(d.Present? && d.value != "") ==> r == "未設定"
  {
    if d.Present? && d.value != "" then d.value else "未設定"
  }

  function TitleLine(o: Snapshot, n: Snapshot): string {
    "タイトル: \"" + TitleText(TitleOf(o)) + "\" → \"" + TitleText(TitleOf(n)) + "\""
  }

  function DueDateLine(o: Snapshot, n: Snapshot): string {
    "期限: " + DueDateText(DueDateOf(o)) + " → " + DueDateText(DueDateOf(n))
  }

  /** The `changes` array of an UPDATE entry: a title line exactly when the
      titles differ, then a due-date line exactly when the due dates
      differ. */
  function ChangeLines(o: Snapshot, n: Snapshot): (r: seq<string>)
    ensures |r| == (if TitleOf(o) != TitleOf(n) then 1 else 0) + (if DueDateOf(o) != DueDateOf(n) then 1 else 0)
    ensures TitleOf(o) != TitleOf(n) ==> r[0] == TitleLine(o, n)
    ensures DueDateOf(o) != DueDateOf(n) ==> r[|r| - 1] == DueDateLine(o, n)
  {
    var withTitle := if TitleOf(o) != TitleOf(n) then [TitleLine(o, n)] else [];
    if DueDateOf(o) != DueDateOf(n) then withTitle + [DueDateLine(o, n)] else withTitle
  }

  /** What `renderValueChanges` shows. */
  datatype ChangeBlock =
    | Created(title: Option<string>, dueDate: Option<string>)
    | Changed(lines: seq<string>)
    | Status(wasDone: bool, isDone: bool)

  /** `renderValueChanges(action, oldValues, newValues)`; `None` is the
      `null` it returns when there is nothing to show. */
  function RenderValueChanges(action: string, oldValues: Option<Snapshot>, newValues: Option<Snapshot>)
    : (r: Option<ChangeBlock>)
    ensures oldValues.None? && newValues.None? ==> r.None?
    ensures action == "CREATE" && newValues.Some? ==>
      r == Some(Created(TitleOf(newValues.value),
                        match DueDateOf(newValues.value)
                        case Present(d) => if d != "" then Some(d) else None
                        case _ => None))
    ensures action == "CREATE" && oldValues.Some? && newValues.None? ==> r == Some(Created(None, None))
    ensures action == "UPDATE" && oldValues.Some? && newValues.Some? ==>
      var lines := ChangeLines(oldValues.value, newValues.value);
      r == if |lines| > 0 then Some(Changed(lines)) else None
    ensures action == "UPDATE" && oldValues.Some? && newValues.Some? ==>
      (r.None? <==> TitleOf(oldValues.value) == TitleOf(newValues.value) &&
                      DueDateOf(oldValues.value) == DueDateOf(newValues.value))
    ensures action == "TOGGLE" && oldValues.Some? && newValues.Some? ==>
      r == Some(Status(oldValues.value.doneFlag, newValues.value.doneFlag))
    ensures action in {"UPDATE", "TOGGLE"} && (oldValues.None? || newValues.None?) ==> r.None?
    ensures action !in {"CREATE", "UPDATE", "TOGGLE"} ==> r.None?
    ensures r.Some? && r.value.Changed? ==>
      action == "UPDATE" && oldValues.Some? && newValues.Some? && |r.value.lines| > 0
  {
    if oldValues.None? && newValues.None? then None
    else if action == "CREATE" then
      var title := if newValues.Some? then TitleOf(newValues.value) else None;
      var due := if newValues.Some? then DueDateOf(newValues.value) else Undefined;
      Some(Created(title, if due.Present? && due.value != "" then Some(due.value) else None))
    else if action == "UPDATE" && oldValues.Some? && newValues.Some? && |ChangeLines(oldValues.value, newValues.value)| > 0 then
      Some(Changed(ChangeLines(oldValues.value, newValues.value)))
    else if action == "TOGGLE" && oldValues.Some? && newValues.Some? then
      Some(Status(oldValues.value.doneFlag, newValues.value.doneFlag))
    else None
  }

  /** The entry `toggle` appends is always shown with one of the two
      specific sentences, the one matching the new flag, and with the
      status change from the old flag to the new one. */
  lemma ToggleEntryText(db: Db, id: int, now: Instant)
    requires Valid(db)
    requires IsLive(db, id)
    ensures
      var (db', r) := ToggleStep(db, id, now);
      var e := db'.auditLogs[|db'.auditLogs| - 1];
      && GetActionText(ActionName(e.action), e.oldValues, e.newValues) ==
           (if r.value.doneFlag then "完了にしました" else "未完了に戻しました")
      && RenderValueChanges(ActionName(e.action), e.oldValues, e.newValues) ==
           Some(Status(!r.value.doneFlag, r.value.doneFlag))
  {
  }

  /** An update that keeps the title and leaves the due date alone logs an
      entry that shows no change block. */
  lemma UnchangedUpdateShowsNothing(db: Db, input: UpdateInput, now: Instant)
    requires Valid(db)
    requires IsLive(db, input.id)
    requires input.title.None? || input.title == Some(db.todos[input.id - 1].title)
    requires input.dueDate.Undefined?
    ensures
      var db' := UpdateStep(db, input, now).0;
      var e := db'.auditLogs[|db'.auditLogs| - 1];
      RenderValueChanges(ActionName(e.action), e.oldValues, e.newValues).None?
  {
    SelectById(db, input.id);
  }

  /** An update that changes the title logs an entry whose change block
      starts with the title line. */
  lemma TitleUpdateShowsTitleLine(db: Db, input: UpdateInput, now: Instant)
    requires Valid(db)
    requires IsLive(db, input.id)
    requires input.title.Some? && input.title.value != db.todos[input.id - 1].title
    ensures
      var db' := UpdateStep(db, input, now).0;
      var e := db'.auditLogs[|db'.auditLogs| - 1];
      var block := RenderValueChanges(ActionName(e.action), e.oldValues, e.newValues);
      block.Some? && block.value.Changed? &&
      block.value.lines[0] == "タイトル: \"" + db.todos[input.id - 1].title + "\" → \"" + input.title.value + "\""
  {
    var before := db.todos[input.id - 1];
    var (db', r) := UpdateStep(db, input, now);
    var after := r.value;
    assert db'.auditLogs[|db'.auditLogs| - 1] ==
      AuditLog(|db.auditLogs| + 1, input.id, Update, Some(FieldsOf(before)), Some(FieldsOf(after)), now);
    TitleChangeBlock(FieldsOf(before), FieldsOf(after));
  }

  /** Two snapshots with different titles show a change block headed by
      the title line. */
  lemma TitleChangeBlock(o: Snapshot, n: Snapshot)
    requires o.Fields? && n.Fields? && o.title != n.title
    ensures var block := RenderValueChanges("UPDATE", Some(o), Some(n));
      block.Some? && block.value.Changed? &&
      block.value.lines[0] == "タイトル: \"" + o.title + "\" → \"" + n.title + "\""
  {
    assert TitleOf(o) != TitleOf(n);
  }
}

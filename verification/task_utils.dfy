/** The status string a board column stands for (src/utils/taskUtils.jsx). */
module TaskUtils {
  import opened Wrappers

  const TodoStatus: string := "todo"
  const InProgressStatus: string := "in-progress"
  const CompletedStatus: string := "completed"

  /** The ids of the three fixed board columns. */
  predicate IsColumnId(columnId: int)
  {
    1 <= columnId <= 3
  }

  /** The three statuses the server groups tasks by. */
  predicate IsStatus(status: string)
  {
    status == TodoStatus || status == InProgressStatus || status == CompletedStatus
  }

  /** `getStatusByColumnId`: total on every number; a column id gives its
      status and anything else gives `""`, which is no status at all. */
  function StatusByColumnId(columnId: int): (status: string)
    ensures IsStatus(status) <==> IsColumnId(columnId)
    ensures !IsColumnId(columnId) <==> status == ""
  {
    match columnId
    case 1 => "todo"
    case 2 => "in-progress"
    case 3 => "completed"
    case _ => ""
  }

  /** The column a status belongs to, read off the board's layout: the column
      with id 1 lists the "todo" group, 2 "in-progress" and 3 "completed". */
  function ColumnIdOfStatus(status: string): (columnId: Option<int>)
    ensures columnId.Some? <==> IsStatus(status)
    ensures columnId.Some? ==> IsColumnId(columnId.value)
  {
    if status == TodoStatus then Some(1)
    else if status == InProgressStatus then Some(2)
    else if status == CompletedStatus then Some(3)
    else None
  }

  /** Column id to status and back is the identity on the three columns, and
      status to column id and back is the identity on the three statuses. */
  lemma StatusRoundTrip(columnId: int, status: string)
    ensures IsColumnId(columnId) ==> ColumnIdOfStatus(StatusByColumnId(columnId)) == Some(columnId)
    ensures IsStatus(status) ==> StatusByColumnId(ColumnIdOfStatus(status).value) == status
  {
  }

  /** Distinct columns have distinct statuses. */
  lemma StatusInjective(a: int, b: int)
    requires IsColumnId(a) && IsColumnId(b)
    ensures StatusByColumnId(a) == StatusByColumnId(b) ==> a == b
  {
    StatusRoundTrip(a, "");
    StatusRoundTrip(b, "");
  }

  /** The three columns in order map to the three statuses in order. */
  lemma StatusTable()
    ensures [StatusByColumnId(1), StatusByColumnId(2), StatusByColumnId(3)]
         == [TodoStatus, InProgressStatus, CompletedStatus]
    ensures StatusByColumnId(0) == "" && StatusByColumnId(4) == ""
  {
  }
}

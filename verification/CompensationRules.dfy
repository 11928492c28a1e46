/** Rows of the process table and the compensation task's decisions about them. */
module CompensationRules {

  datatype Status = READY | NORMAL | FAIL | COMPENSATE | DEAD

  /** A row of the process table; times in milliseconds. */
  datatype Row = Row(status: Status, retrytimes: nat, createtime: int)

  const DEAD_AFTER := 15 * 60 * 1000
  const READY_RESEND_AFTER := 6 * 60 * 1000
  const MAX_RETRYTIMES := 5

  predicate Overdue(row: Row, now: int) {
    now > row.createtime + DEAD_AFTER
  }

  function CheckMessageDeaded(row: Row, now: int): bool {
    match row.status
    case NORMAL => false
    case FAIL => row.retrytimes > MAX_RETRYTIMES || Overdue(row, now)
    case COMPENSATE => row.retrytimes > MAX_RETRYTIMES || Overdue(row, now)
    case READY => Overdue(row, now)
    case DEAD => false
  }

  function ShouldReSend(row: Row, now: int): bool {
    match row.status
    case FAIL => !CheckMessageDeaded(row, now)
    case READY => !CheckMessageDeaded(row, now) && now > row.createtime + READY_RESEND_AFTER
    case _ => false
  }

  /** The statuses whose rows are resent or buried. */
  predicate Pending(status: Status) {
    status == FAIL || status == COMPENSATE || status == READY
  }

  /** The life of an unacknowledged row by its age and its resends: a READY one is left alone for six
      minutes, may be resent until fifteen, and is buried after that; a FAIL one is resent at once, up
      to six times and fifteen minutes, and else buried; one resent is only watched, and buried after
      its sixth resend or fifteen minutes. */
  lemma LifeOfARow(row: Row, now: int)
    requires Pending(row.status)
    ensures !(ShouldReSend(row, now) && CheckMessageDeaded(row, now))
    ensures row.status == READY ==>
      (ShouldReSend(row, now) <==> 6 * 60 * 1000 < now - row.createtime <= 15 * 60 * 1000)
      && (CheckMessageDeaded(row, now) <==> now - row.createtime > 15 * 60 * 1000)
    ensures row.status != READY ==>
      (CheckMessageDeaded(row, now) <==> row.retrytimes >= 6 || now - row.createtime > 15 * 60 * 1000)
    ensures row.status == FAIL ==>
      (ShouldReSend(row, now) <==> row.retrytimes <= 5 && now - row.createtime <= 15 * 60 * 1000)
    ensures row.status == COMPENSATE ==> !ShouldReSend(row, now)
  {}

  /** Confirmed and dead rows are neither resent nor judged. */
  lemma SettledRowsAreLeft(row: Row, now: int)
    requires row.status == NORMAL || row.status == DEAD
    ensures !Pending(row.status) && !ShouldReSend(row, now) && !CheckMessageDeaded(row, now)
  {}
}

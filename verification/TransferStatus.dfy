/** Warm-transfer progress as the call row records it: the transition table and the two ways of writing the row. */
module TransferStatus {
  import opened Options

  datatype Status = NOT_REQUESTED | REQUESTED | ANNOUNCING | DIALING_AGENT | WHISPERING_SUMMARY | BRIDGED
                  | AGENT_NO_ANSWER | AGENT_BUSY | AGENT_REJECTED | FAILED | ABANDONED

  /** The legal transitions out of a status; none for a status the table does not list. */
  function Allowed(from: Status): set<Status> {
    match from
    case NOT_REQUESTED => {REQUESTED}
    case REQUESTED => {ANNOUNCING, FAILED, ABANDONED}
    case ANNOUNCING => {DIALING_AGENT, FAILED, ABANDONED}
    case DIALING_AGENT => {WHISPERING_SUMMARY, AGENT_NO_ANSWER, AGENT_BUSY, AGENT_REJECTED, FAILED, ABANDONED}
    case WHISPERING_SUMMARY => {BRIDGED, AGENT_REJECTED, FAILED, ABANDONED}
    case _ => {}
  }

  predicate Legal(from: Status, to: Status) {
    to in Allowed(from)
  }

  const FALLBACK_TRIGGERS := {AGENT_NO_ANSWER, AGENT_BUSY, AGENT_REJECTED, FAILED}

  /** The optional columns one update may carry. */
  datatype Fields = Fields(
    destinationId: Option<nat>, announcementStartedAt: Option<int>, agentDialedAt: Option<int>,
    agentAnsweredAt: Option<int>, whisperSeconds: Option<real>, bridgedAt: Option<int>, fallbackTaken: Option<string>,
    summary: Option<string>)

  function Coalesce<T>(given: Option<T>, stored: Option<T>): Option<T> {
    if given.Some? then given else stored
  }

  function Merged(given: Fields, stored: Fields): Fields {
    Fields(
      Coalesce(given.destinationId, stored.destinationId),
      Coalesce(given.announcementStartedAt, stored.announcementStartedAt),
      Coalesce(given.agentDialedAt, stored.agentDialedAt),
      Coalesce(given.agentAnsweredAt, stored.agentAnsweredAt),
      Coalesce(given.whisperSeconds, stored.whisperSeconds),
      Coalesce(given.bridgedAt, stored.bridgedAt),
      Coalesce(given.fallbackTaken, stored.fallbackTaken),
      Coalesce(given.summary, stored.summary))
  }

  /** The transfer columns of one call row. */
  class TransferRow {
    var status: Status
    var fields: Fields
    /** Every status written so far, the initial one first. */
    ghost var history: seq<Status>

    ghost predicate Valid()
      reads this
    {
      history != [] && history[|history| - 1] == status && history[0] == NOT_REQUESTED && StutteringPath(history)
    }

    constructor ()
      ensures Valid() && status == NOT_REQUESTED && history == [NOT_REQUESTED]
    {
      status := NOT_REQUESTED;
      fields := Fields(None, None, None, None, None, None, None, None);
      history := [NOT_REQUESTED];
    }

    /** Writes `to` after checking the table; an illegal transition raises and writes nothing. */
    method Advance(from: Status, to: Status, given: Fields) returns (ok: bool)
      requires Valid()
      modifies this
      ensures ok == Legal(from, to)
      ensures ok ==> status == to && fields == Merged(given, old(fields)) && history == old(history) + [to]
      ensures !ok ==> status == old(status) && fields == old(fields) && history == old(history)
      ensures from == old(status) ==> Valid()
    {
      ok := Legal(from, to);
      if ok {
        status := to;
        fields := Merged(given, fields);
        history := history + [to];
      }
    }

    /** Writes columns without moving the status: the status written is the one captured, or else the stored one. */
    method Patch(captured: Option<Status>, given: Fields)
      requires Valid()
      modifies this
      ensures status == (if captured.Some? then captured.value else old(status))
      ensures fields == Merged(given, old(fields))
      ensures history == old(history) + [status]
      ensures captured.None? || captured == Some(old(status)) ==> Valid() && status == old(status)
    {
      var current := if captured.Some? then captured.value else status;
      status := current;
      fields := Merged(given, fields);
      history := history + [current];
    }
  }

  /** The transfer's status in memory beside its row: an advance commits the row first and returns to memory later. */
  class TransferProgress {
    const row: TransferRow
    var status: Status
    /** The status of an advance that has committed and not yet returned. */
    ghost var committed: Option<Status>

    ghost predicate Valid()
      reads this, row
    {
      && row.Valid()
      && match committed
         case None => status == row.status
         case Some(to) => row.status == to && Legal(status, to)
    }

    constructor (row: TransferRow)
      requires row.Valid()
      ensures Valid() && this.row == row && committed == None
    {
      this.row, status, committed := row, row.status, None;
    }

    /** Up to the commit. An illegal advance raises and changes nothing. */
    method CommitAdvance(to: Status, given: Fields) returns (ok: bool)
      requires Valid() && committed == None
      modifies this, row
      ensures Valid() && ok == Legal(old(status), to) && status == old(status)
      ensures committed == if ok then Some(to) else None
      ensures row.history == if ok then old(row.history) + [to] else old(row.history)
    {
      ok := row.Advance(status, to, given);
      if ok { committed := Some(to); }
    }

    /** From the commit to the return. */
    method FinishAdvance(to: Status)
      requires Valid() && committed == Some(to)
      modifies this
      ensures Valid() && committed == None && status == to == row.status
    {
      status := to;
      committed := None;
    }

    /** Columns alone, between advances: neither status moves. */
    method PatchColumns(given: Fields)
      requires Valid() && committed == None
      modifies row
      ensures Valid() && row.status == old(row.status) && row.fields == Merged(given, old(row.fields))
    {
      row.Patch(Some(status), given);
    }
  }

  /** Row and memory agree exactly when no advance is between its commit and its return. */
  lemma AgreeIff(p: TransferProgress)
    requires p.Valid()
    ensures p.status == p.row.status <==> p.committed == None
  {
    match p.committed
    case None =>
    case Some(to) => assert Legal(p.status, to) ==> p.status != to;
  }

  // ---- Paths ----

  /** Consecutive statuses are equal or a legal transition. */
  ghost predicate StutteringPath(h: seq<Status>) {
    forall i :: 0 <= i < |h| - 1 ==> h[i + 1] == h[i] || Legal(h[i], h[i + 1])
  }

  ghost predicate Path(h: seq<Status>) {
    forall i :: 0 <= i < |h| - 1 ==> Legal(h[i], h[i + 1])
  }

  /** The stages a transfer can only enter in this order. */
  function Stage(s: Status): nat {
    match s
    case NOT_REQUESTED => 0
    case REQUESTED => 1
    case ANNOUNCING => 2
    case DIALING_AGENT => 3
    case WHISPERING_SUMMARY => 4
    case _ => 5
  }

  lemma {:induction false} StagesAdvanceByPosition(h: seq<Status>, i: nat)
    requires Path(h) && h != [] && h[0] == NOT_REQUESTED && i < |h|
    ensures Stage(h[i]) < 5 ==> Stage(h[i]) == i
    ensures i + 1 < |h| ==> Stage(h[i]) < 5
  {
    if i > 0 {
      StagesAdvanceByPosition(h, i - 1);
      assert Legal(h[i - 1], h[i - 1 + 1]);
    }
    if i + 1 < |h| { assert Legal(h[i], h[i + 1]); }
  }

  /** No transfer takes more than five steps, and the only way to BRIDGED is through every stage in order. */
  lemma OnlyWayToBridged(h: seq<Status>)
    requires Path(h) && h != [] && h[0] == NOT_REQUESTED
    ensures |h| <= 6
    ensures h[|h| - 1] == BRIDGED ==>
              h == [NOT_REQUESTED, REQUESTED, ANNOUNCING, DIALING_AGENT, WHISPERING_SUMMARY, BRIDGED]
  {
    var n := |h|;
    if n > 1 {
      StagesAdvanceByPosition(h, n - 2);
      assert Legal(h[n - 2], h[n - 2 + 1]);
      forall i | 0 <= i < n - 1 ensures Stage(h[i]) == i {
        StagesAdvanceByPosition(h, i);
      }
    }
  }

  /** No update erases a column another one filled. */
  lemma ColumnsAreNeverErased(given: Fields, stored: Fields)
    ensures var m := Merged(given, stored);
      && (stored.summary.Some? ==> m.summary.Some?) && (stored.bridgedAt.Some? ==> m.bridgedAt.Some?)
      && (stored.fallbackTaken.Some? ==> m.fallbackTaken.Some?)
      && (stored.destinationId.Some? ==> m.destinationId.Some?)
      && (stored.announcementStartedAt.Some? ==> m.announcementStartedAt.Some?)
      && (stored.agentAnsweredAt.Some? ==> m.agentAnsweredAt.Some?)
      && (stored.agentDialedAt.Some? ==> m.agentDialedAt.Some?)
      && (stored.whisperSeconds.Some? ==> m.whisperSeconds.Some?)
      && Merged(given, m) == m
  {
  }

  /** A patch that captured its status before an advance and commits after it always moves the row backwards. */
  lemma OvertakenPatchBreaksThePath(h: seq<Status>, captured: Status, overtaking: Status)
    requires StutteringPath(h) && h != [] && h[|h| - 1] == captured && Legal(captured, overtaking)
    ensures !StutteringPath(h + [overtaking] + [captured])
  {
    var g := h + [overtaking] + [captured];
    var i := |h|;
    assert g[i] == overtaking && g[i + 1] == captured;
    assert Stage(captured) < Stage(overtaking);
    assert captured != overtaking && !Legal(overtaking, captured);
  }
}

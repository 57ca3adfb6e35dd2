/**
 The alert effect guard as atomic SQL statements on one table. A claim is two statements, so runs are
 sequences of statements from any number of workers, interleaved freely, with arbitrary clocks.
 */
module EffectStatements {
  import opened Wrappers
  import opened Text

  datatype Channel = InApp | Webhook | Email | Slack | Websocket | Telegram | Discord

  function ChannelText(c: Channel): (s: string)
    ensures ':' !in s
  {
    match c
    case InApp => "in_app"
    case Webhook => "webhook"
    case Email => "email"
    case Slack => "slack"
    case Websocket => "websocket"
    case Telegram => "telegram"
    case Discord => "discord"
  }

  /** `${outboxEventId}:${channel}`. */
  function EffectKey(event: int, channel: Channel): string {
    IntText(event) + ":" + ChannelText(channel)
  }

  /** `${baseKey}:dup:${randomUUID()}`. */
  function SuppressionKey(event: int, channel: Channel, uuid: string): string {
    EffectKey(event, channel) + ":dup:" + uuid
  }

  lemma ChannelTextInjective(c: Channel, d: Channel)
    requires ChannelText(c) == ChannelText(d)
    ensures c == d
  {
    assert ChannelText(c)[0] == ChannelText(d)[0] && |ChannelText(c)| == |ChannelText(d)|;
    assert ChannelText(c)[2] == ChannelText(d)[2];
  }

  /** Different effects never share a key. */
  lemma EffectKeyInjective(event: int, channel: Channel, event': int, channel': Channel)
    ensures EffectKey(event, channel) == EffectKey(event', channel') <==> event == event' && channel == channel'
  {
    if EffectKey(event, channel) == EffectKey(event', channel') {
      IntTextHasNoColon(event);
      IntTextHasNoColon(event');
      SplitAtFirstColon(IntText(event), ChannelText(channel), IntText(event'), ChannelText(channel'));
      IntTextInjective(event, event');
      ChannelTextInjective(channel, channel');
    }
  }

  /** An audit row never takes the key of an effect. */
  lemma SuppressionKeyIsApart(event: int, channel: Channel, uuid: string, event': int, channel': Channel)
    ensures SuppressionKey(event, channel, uuid) != EffectKey(event', channel')
  {
    var rest := ChannelText(channel) + ":dup:" + uuid;
    assert SuppressionKey(event, channel, uuid) == IntText(event) + ":" + rest;
    assert rest[|ChannelText(channel)|] == ':';
    if SuppressionKey(event, channel, uuid) == EffectKey(event', channel') {
      IntTextHasNoColon(event);
      IntTextHasNoColon(event');
      SplitAtFirstColon(IntText(event), rest, IntText(event'), ChannelText(channel'));
    }
  }

  // ---------------------------------------------------------------------------------------------
  // Statements
  // ---------------------------------------------------------------------------------------------

  datatype Status = Pending | Delivered | Ambiguous | DuplicateSuppressed

  datatype Row = Row(
    event: int, channel: Channel, status: Status, claimedBy: string, claimedAt: int,
    leaseExpiresAt: Option<int>, deliveredAt: Option<int>, attemptCount: int, errorMessage: Option<string>)

  type Table = map<string, Row>

  datatype Statement =
    | Insert(event: int, channel: Channel, worker: string, now: int, lease: int)
    | ReadBack(event: int, channel: Channel, worker: string)
    | Commit(event: int, channel: Channel, worker: string, now: int)
    | MarkAmbiguous(event: int, channel: Channel, worker: string, reason: string)
    | Reclaim(worker: string, now: int, lease: int)
    | Suppress(event: int, channel: Channel, worker: string, reason: string, uuid: string, now: int)

  predicate OwnedPending(t: Table, key: string, worker: string) {
    key in t && t[key].claimedBy == worker && t[key].status == Pending
  }

  predicate Expired(t: Table, key: string, now: int) {
    key in t && t[key].status == Pending && t[key].leaseExpiresAt.Some? && t[key].leaseExpiresAt.value < now
  }

  function Reclaimed(t: Table, worker: string, now: int, lease: int): Table {
    map k | k in t ::
      if Expired(t, k, now) then
        t[k].(
          claimedBy := worker, claimedAt := now, leaseExpiresAt := Some(now + lease),
          attemptCount := t[k].attemptCount + 1)
      else
        t[k]
  }

  /** The table after a statement. */
  function Exec(t: Table, st: Statement): Table {
    match st
    case Insert(event, channel, worker, now, lease) =>
      var key := EffectKey(event, channel);
      if key in t then t
      else t[key := Row(event, channel, Pending, worker, now, Some(now + lease), None, 1, None)]
    case ReadBack(_, _, _) => t
    case Commit(event, channel, worker, now) =>
      var key := EffectKey(event, channel);
      if OwnedPending(t, key, worker) then
        t[key := t[key].(status := Delivered, deliveredAt := Some(now), errorMessage := None)]
      else
        t
    case MarkAmbiguous(event, channel, worker, reason) =>
      var key := EffectKey(event, channel);
      if OwnedPending(t, key, worker) then
        t[key := t[key].(status := Ambiguous, errorMessage := Some(reason))]
      else
        t
    case Reclaim(worker, now, lease) => Reclaimed(t, worker, now, lease)
    case Suppress(event, channel, worker, reason, uuid, now) =>
      var key := SuppressionKey(event, channel, uuid);
      if key in t then t
      else t[key := Row(event, channel, DuplicateSuppressed, worker, now, None, None, 0, Some(reason))]
  }

  /** What a statement answers: `true` for a row inserted, owned or updated. */
  predicate Answer(t: Table, st: Statement) {
    match st
    case Insert(event, channel, _, _, _) => EffectKey(event, channel) !in t
    case ReadBack(event, channel, worker) => OwnedPending(t, EffectKey(event, channel), worker)
    case Commit(event, channel, worker, _) => OwnedPending(t, EffectKey(event, channel), worker)
    case MarkAmbiguous(event, channel, worker, _) => OwnedPending(t, EffectKey(event, channel), worker)
    case Reclaim(_, now, _) => exists k | k in t :: Expired(t, k, now)
    case Suppress(event, channel, _, _, uuid, _) => SuppressionKey(event, channel, uuid) !in t
  }

  // ---------------------------------------------------------------------------------------------
  // Histories
  // ---------------------------------------------------------------------------------------------

  /** The table after a history of statements, starting empty. */
  function TableAfter(history: seq<Statement>): Table {
    if history == [] then map[] else Exec(TableAfter(history[..|history| - 1]), history[|history| - 1])
  }

  predicate Settles(st: Statement, key: string) {
    (st.Commit? || st.MarkAmbiguous?) && EffectKey(st.event, st.channel) == key
  }

  /** How many commit or ambiguous calls for `key` have returned true. */
  function Settlements(history: seq<Statement>, key: string): nat {
    if history == [] then
      0
    else
      var front, st := history[..|history| - 1], history[|history| - 1];
      Settlements(front, key) + (if Settles(st, key) && Answer(TableAfter(front), st) then 1 else 0)
  }

  /** How many sweeps have taken `key` over. */
  function Takeovers(history: seq<Statement>, key: string): nat {
    if history == [] then
      0
    else
      var front, st := history[..|history| - 1], history[|history| - 1];
      Takeovers(front, key) + (if st.Reclaim? && Expired(TableAfter(front), key, st.now) then 1 else 0)
  }

  /** The worker that last obtained `key`, by inserting the row or by a sweep that took it over. */
  function LatestOwner(history: seq<Statement>, key: string): Option<string> {
    if history == [] then
      None
    else
      var front, st := history[..|history| - 1], history[|history| - 1];
      if st.Insert? && EffectKey(st.event, st.channel) == key && Answer(TableAfter(front), st) then Some(st.worker)
      else if st.Reclaim? && Expired(TableAfter(front), key, st.now) then Some(st.worker)
      else LatestOwner(front, key)
  }

  /** What the row of an effect says about its history, in every interleaving. */
  ghost predicate RowTellsHistory(history: seq<Statement>, key: string) {
    var t := TableAfter(history);
    if key in t then
      && t[key].status in {Pending, Delivered, Ambiguous}
      && t[key].attemptCount == 1 + Takeovers(history, key)
      && LatestOwner(history, key) == Some(t[key].claimedBy)
      && Settlements(history, key) == (if t[key].status == Pending then 0 else 1)
    else
      Settlements(history, key) == 0 && Takeovers(history, key) == 0 && LatestOwner(history, key) == None
  }

  lemma {:induction false} HistoryIsTold(history: seq<Statement>, event: int, channel: Channel)
    ensures RowTellsHistory(history, EffectKey(event, channel))
  {
    hide EffectKey, SuppressionKey;
    if history != [] {
      var key := EffectKey(event, channel);
      var front, st := history[..|history| - 1], history[|history| - 1];
      HistoryIsTold(front, event, channel);
      if st.Suppress? {
        SuppressionKeyIsApart(st.event, st.channel, st.uuid, event, channel);
      }
    }
  }

  /** At most one commit-or-ambiguous call per effect ever succeeds, and then the row is settled. */
  lemma AtMostOneSettlement(history: seq<Statement>, event: int, channel: Channel)
    ensures var key, t := EffectKey(event, channel), TableAfter(history);
      && Settlements(history, key) <= 1
      && (Settlements(history, key) == 1 <==> key in t && t[key].status in {Delivered, Ambiguous})
  {
    HistoryIsTold(history, event, channel);
  }

  /** Delivered and ambiguous rows never change again. */
  lemma {:induction false} SettledStays(t: Table, later: seq<Statement>, event: int, channel: Channel)
    requires EffectKey(event, channel) in t && t[EffectKey(event, channel)].status in {Delivered, Ambiguous}
    ensures var r := ExecAll(t, later);
      EffectKey(event, channel) in r && r[EffectKey(event, channel)] == t[EffectKey(event, channel)]
  {
    if later != [] {
      SettledStays(t, later[..|later| - 1], event, channel);
      var st := later[|later| - 1];
      if st.Suppress? {
        SuppressionKeyIsApart(st.event, st.channel, st.uuid, event, channel);
      }
    }
  }

  function ExecAll(t: Table, later: seq<Statement>): Table {
    if later == [] then t else Exec(ExecAll(t, later[..|later| - 1]), later[|later| - 1])
  }

  /** A commit or ambiguity mark succeeds exactly for the latest owner of an effect not yet settled. */
  lemma SettlesForLatestOwner(history: seq<Statement>, st: Statement)
    requires st.Commit? || st.MarkAmbiguous?
    ensures var key := EffectKey(st.event, st.channel);
      Answer(TableAfter(history), st)
      <==> LatestOwner(history, key) == Some(st.worker) && Settlements(history, key) == 0
  {
    HistoryIsTold(history, st.event, st.channel);
  }

  /** The answer of a claim: it holds exactly for the latest owner while nothing is settled. */
  lemma ClaimedIsLatestOwner(history: seq<Statement>, event: int, channel: Channel, worker: string)
    ensures var key := EffectKey(event, channel);
      Answer(TableAfter(history), ReadBack(event, channel, worker))
      <==> LatestOwner(history, key) == Some(worker) && Settlements(history, key) == 0
  {
    HistoryIsTold(history, event, channel);
  }

  /** Some sweep of `later` reads a clock past `expiry` while the effect is still unsettled. */
  ghost predicate Overruns(history: seq<Statement>, later: seq<Statement>, key: string, expiry: int) {
    exists i :: 0 <= i < |later| && SweepsPast(history, later, key, expiry, i)
  }

  predicate SweepsPast(history: seq<Statement>, later: seq<Statement>, key: string, expiry: int, i: nat)
    requires i < |later|
  {
    later[i].Reclaim? && later[i].now > expiry && Settlements(history + later[..i], key) == 0
  }

  /** The row as its owner left it: same claimer, same expiry. */
  predicate StillLeased(t: Table, t': Table, key: string)
    requires key in t
  {
    key in t' && t'[key].claimedBy == t[key].claimedBy && t'[key].leaseExpiresAt == t[key].leaseExpiresAt
  }

  /**
   A live lease shields its owner, whatever statements follow: the effect is taken over exactly when some
   sweep reads a clock past the expiry before the effect is settled; until then owner, expiry and attempts stay.
   */
  lemma {:induction false} LeaseShieldsIff(
    history: seq<Statement>, later: seq<Statement>, event: int, channel: Channel, expiry: int)
    requires EffectKey(event, channel) in TableAfter(history)
    requires TableAfter(history)[EffectKey(event, channel)].leaseExpiresAt == Some(expiry)
    ensures var key, whole := EffectKey(event, channel), history + later;
      && (Takeovers(whole, key) == Takeovers(history, key) <==> !Overruns(history, later, key, expiry))
      && Takeovers(whole, key) >= Takeovers(history, key)
      && (!Overruns(history, later, key, expiry) ==>
            LatestOwner(whole, key) == LatestOwner(history, key)
            && StillLeased(TableAfter(history), TableAfter(whole), key))
    decreases |later|
  {
    hide TableAfter, Takeovers, LatestOwner, Settlements, EffectKey, Overruns;
    var key := EffectKey(event, channel);
    if later == [] {
      assert history + later == history;
      NoOverrunsYet(history, key, expiry);
    } else {
      var front, st := later[..|later| - 1], later[|later| - 1];
      assert history + later == (history + front) + [st];
      LeaseShieldsIff(history, front, event, channel, expiry);
      OverrunsNext(history, later, key, expiry);
      TakeoversGrow(history + front, st, key);
      if !Overruns(history, front, key, expiry) {
        LeaseStep(history + front, st, event, channel, expiry);
      }
    }
  }

  /**
   A claim of an effect that has no row holds it for the lease it asks for: whatever follows, the effect is taken
   over exactly when a sweep reads a clock past `now + lease` before it is settled, and until then its owner stays.
   */
  lemma ClaimShieldsIff(
    history: seq<Statement>, later: seq<Statement>, event: int, channel: Channel, worker: string, now: int, lease: int)
    requires EffectKey(event, channel) !in TableAfter(history)
    ensures var key, claimed := EffectKey(event, channel), history + [Insert(event, channel, worker, now, lease)];
      var whole := claimed + later;
      && (Takeovers(whole, key) == 0 <==> !Overruns(claimed, later, key, now + lease))
      && (Takeovers(whole, key) == 0 ==>
            && key in TableAfter(whole) && TableAfter(whole)[key].claimedBy == worker
            && TableAfter(whole)[key].leaseExpiresAt == Some(now + lease)
            && LatestOwner(whole, key) == Some(worker))
  {
    hide TableAfter, Takeovers, LatestOwner, Settlements, EffectKey, Overruns;
    InsertStarts(history, event, channel, worker, now, lease);
    LeaseShieldsIff(history + [Insert(event, channel, worker, now, lease)], later, event, channel, now + lease);
  }

  lemma InsertStarts(history: seq<Statement>, event: int, channel: Channel, worker: string, now: int, lease: int)
    requires EffectKey(event, channel) !in TableAfter(history)
    ensures var key, claimed := EffectKey(event, channel), history + [Insert(event, channel, worker, now, lease)];
      && Takeovers(claimed, key) == 0 && LatestOwner(claimed, key) == Some(worker)
      && key in TableAfter(claimed) && TableAfter(claimed)[key].claimedBy == worker
      && TableAfter(claimed)[key].leaseExpiresAt == Some(now + lease)
  {
    hide EffectKey, Settlements;
    var claimed := history + [Insert(event, channel, worker, now, lease)];
    assert claimed[..|history|] == history;
    HistoryIsTold(history, event, channel);
  }

  /** The same for a row that a sweep takes over at `now`: its new owner is shielded until `now + lease`. */
  lemma ReclaimShieldsIff(
    history: seq<Statement>, later: seq<Statement>, event: int, channel: Channel, worker: string, now: int, lease: int)
    requires var key, t := EffectKey(event, channel), TableAfter(history);
      && key in t && t[key].leaseExpiresAt.Some? && t[key].leaseExpiresAt.value < now
      && Settlements(history, key) == 0
    ensures var key, taken := EffectKey(event, channel), history + [Reclaim(worker, now, lease)];
      var whole := taken + later;
      && Takeovers(taken, key) == Takeovers(history, key) + 1
      && (Takeovers(whole, key) == Takeovers(taken, key) <==> !Overruns(taken, later, key, now + lease))
      && (Takeovers(whole, key) == Takeovers(taken, key) ==>
            && key in TableAfter(whole) && TableAfter(whole)[key].claimedBy == worker
            && TableAfter(whole)[key].leaseExpiresAt == Some(now + lease)
            && LatestOwner(whole, key) == Some(worker))
  {
    hide TableAfter, Takeovers, LatestOwner, Settlements, EffectKey, Overruns;
    ReclaimStarts(history, event, channel, worker, now, lease);
    LeaseShieldsIff(history + [Reclaim(worker, now, lease)], later, event, channel, now + lease);
  }

  lemma ReclaimStarts(history: seq<Statement>, event: int, channel: Channel, worker: string, now: int, lease: int)
    requires var key, t := EffectKey(event, channel), TableAfter(history);
      && key in t && t[key].leaseExpiresAt.Some? && t[key].leaseExpiresAt.value < now
      && Settlements(history, key) == 0
    ensures var key, taken := EffectKey(event, channel), history + [Reclaim(worker, now, lease)];
      && Takeovers(taken, key) == Takeovers(history, key) + 1 && LatestOwner(taken, key) == Some(worker)
      && key in TableAfter(taken) && TableAfter(taken)[key].claimedBy == worker
      && TableAfter(taken)[key].leaseExpiresAt == Some(now + lease)
  {
    hide EffectKey, Settlements;
    var taken := history + [Reclaim(worker, now, lease)];
    assert taken[..|history|] == history;
    HistoryIsTold(history, event, channel);
  }

  lemma NoOverrunsYet(history: seq<Statement>, key: string, expiry: int)
    ensures !Overruns(history, [], key, expiry)
  {
  }

  lemma TakeoversGrow(history: seq<Statement>, st: Statement, key: string)
    ensures Takeovers(history + [st], key) >= Takeovers(history, key)
  {
    assert (history + [st])[..|history|] == history;
  }

  /** One statement: a sweep past the expiry takes an unsettled effect over, nothing else touches its lease. */
  lemma LeaseStep(history: seq<Statement>, st: Statement, event: int, channel: Channel, expiry: int)
    requires EffectKey(event, channel) in TableAfter(history)
    requires TableAfter(history)[EffectKey(event, channel)].leaseExpiresAt == Some(expiry)
    ensures var key, whole := EffectKey(event, channel), history + [st];
      var takes := st.Reclaim? && st.now > expiry && Settlements(history, key) == 0;
      && Takeovers(whole, key) == Takeovers(history, key) + (if takes then 1 else 0)
      && (!takes ==>
            LatestOwner(whole, key) == LatestOwner(history, key)
            && StillLeased(TableAfter(history), TableAfter(whole), key))
  {
    hide EffectKey, SuppressionKey, Settlements;
    assert (history + [st])[..|history|] == history;
    HistoryIsTold(history, event, channel);
    if st.Suppress? {
      SuppressionKeyIsApart(st.event, st.channel, st.uuid, event, channel);
    }
  }

  lemma OverrunsNext(history: seq<Statement>, later: seq<Statement>, key: string, expiry: int)
    requires later != []
    ensures var last := |later| - 1;
      Overruns(history, later, key, expiry)
      <==> Overruns(history, later[..last], key, expiry) || SweepsPast(history, later, key, expiry, last)
  {
    var front := later[..|later| - 1];
    forall i | 0 <= i < |front|
      ensures SweepsPast(history, front, key, expiry, i) <==> SweepsPast(history, later, key, expiry, i)
    {
      assert front[..i] == later[..i];
    }
  }
}

module EffectGuard {
  import opened Wrappers
  import opened EffectStatements

  datatype ClaimResult = ClaimResult(claimed: bool, isDuplicate: bool, record: Row)

  class AlertEffectGuard {
    var rows: Table

    constructor ()
      ensures rows == TableAfter([])
    {
      rows := map[];
    }

    /** Insert on conflict do nothing, then read back. */
    method ClaimEffect(event: int, channel: Channel, worker: string, now: int, leaseDurationMs: int)
      returns (r: ClaimResult)
      modifies this
      ensures rows == Exec(old(rows), Insert(event, channel, worker, now, leaseDurationMs))
      ensures r.claimed <==> Answer(rows, ReadBack(event, channel, worker))
      ensures r.isDuplicate == !r.claimed
      ensures EffectKey(event, channel) in rows && r.record == rows[EffectKey(event, channel)]
      ensures EffectKey(event, channel) in old(rows) ==> rows == old(rows)
      ensures EffectKey(event, channel) !in old(rows) ==>
        && r.claimed
        && rows == old(rows)[EffectKey(event, channel) :=
             Row(event, channel, Pending, worker, now, Some(now + leaseDurationMs), None, 1, None)]
      ensures r.claimed <==> r.record.claimedBy == worker && r.record.status == Pending
    {
      var key := EffectKey(event, channel);
      if key !in rows {
        rows := rows[key := Row(event, channel, Pending, worker, now, Some(now + leaseDurationMs), None, 1, None)];
      }
      var record := rows[key];
      var weOwnIt := record.claimedBy == worker && record.status == Pending;
      r := ClaimResult(weOwnIt, !weOwnIt, record);
    }

    method CommitEffect(event: int, channel: Channel, worker: string, now: int) returns (committed: bool)
      modifies this
      ensures rows == Exec(old(rows), Commit(event, channel, worker, now))
      ensures committed <==> Answer(old(rows), Commit(event, channel, worker, now))
      ensures var key := EffectKey(event, channel);
        && (committed <==> key in old(rows) && old(rows)[key].claimedBy == worker && old(rows)[key].status == Pending)
        && rows == if !committed then old(rows) else old(rows)[key := old(rows)[key].(
             status := Delivered, deliveredAt := Some(now), errorMessage := None)]
    {
      var key := EffectKey(event, channel);
      committed := key in rows && rows[key].claimedBy == worker && rows[key].status == Pending;
      if committed {
        rows := rows[key := rows[key].(status := Delivered, deliveredAt := Some(now), errorMessage := None)];
      }
    }

    method MarkEffectAmbiguous(event: int, channel: Channel, worker: string, reason: string)
      returns (marked: bool)
      modifies this
      ensures rows == Exec(old(rows), MarkAmbiguous(event, channel, worker, reason))
      ensures marked <==> Answer(old(rows), MarkAmbiguous(event, channel, worker, reason))
      ensures var key := EffectKey(event, channel);
        && (marked <==> key in old(rows) && old(rows)[key].claimedBy == worker && old(rows)[key].status == Pending)
        && rows == if !marked then old(rows) else old(rows)[key := old(rows)[key].(
             status := Ambiguous, errorMessage := Some(reason))]
    {
      var key := EffectKey(event, channel);
      marked := key in rows && rows[key].claimedBy == worker && rows[key].status == Pending;
      if marked {
        rows := rows[key := rows[key].(status := Ambiguous, errorMessage := Some(reason))];
      }
    }

    /** One update of every expired pending row; returns how many there were. */
    method ReclaimExpiredLeases(newWorker: string, now: int, leaseDurationMs: int) returns (updated: nat)
      modifies this
      ensures rows == Exec(old(rows), Reclaim(newWorker, now, leaseDurationMs))
      ensures updated == |set k | k in old(rows) && Expired(old(rows), k, now)|
      ensures rows.Keys == old(rows).Keys
      ensures forall k | k in old(rows) ::
        rows[k] ==
          if old(rows)[k].status == Pending && old(rows)[k].leaseExpiresAt.Some?
             && old(rows)[k].leaseExpiresAt.value < now then
            old(rows)[k].(
              claimedBy := newWorker, claimedAt := now, leaseExpiresAt := Some(now + leaseDurationMs),
              attemptCount := old(rows)[k].attemptCount + 1)
          else
            old(rows)[k]
    {
      updated := |set k | k in rows && Expired(rows, k, now)|;
      rows := Reclaimed(rows, newWorker, now, leaseDurationMs);
    }

    /** A key collision is logged and otherwise ignored. */
    method RecordDuplicateSuppression(
      event: int, channel: Channel, attemptedBy: string, reason: string, uuid: string, now: int)
      modifies this
      ensures rows == Exec(old(rows), Suppress(event, channel, attemptedBy, reason, uuid, now))
      ensures var key := SuppressionKey(event, channel, uuid);
        rows == if key in old(rows) then old(rows) else old(rows)[key :=
          Row(event, channel, DuplicateSuppressed, attemptedBy, now, None, None, 0, Some(reason))]
    {
      var key := SuppressionKey(event, channel, uuid);
      if key !in rows {
        rows := rows[key := Row(
          event, channel, DuplicateSuppressed, attemptedBy, now, None, None, 0, Some(reason))];
      }
    }
  }
}

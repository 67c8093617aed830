/** Every started restart is recorded exactly once, in order. */
module Accounting {
  import opened Models
  import opened Store
  import opened History
  import opened Backoff
  import opened World
  import opened RecoveryInvariant

  /** What identifies a started restart: its number in the episode and its start. */
  datatype Stamp = Stamp(number: nat, startedAt: Time)

  function StampsOf(attempts: seq<Attempt>): seq<Stamp> {
    seq(|attempts|, i requires 0 <= i < |attempts| => Stamp(attempts[i].number, attempts[i].startedAt))
  }

  function PastStamps(past: seq<Episode>): seq<Stamp> {
    if past == [] then [] else PastStamps(past[..|past| - 1]) + StampsOf(Last(past).attempts)
  }

  /** All restarts ever started for a service, oldest first. */
  function Started(t: Trace): seq<Stamp> {
    PastStamps(t.past) + StampsOf(t.open.attempts)
  }

  function Recorded(records: seq<RestartRecord>): seq<Stamp> {
    seq(|records|, i requires 0 <= i < |records| => Stamp(records[i].attemptNumber, records[i].attemptedAt))
  }

  /** The restart that is started but not yet in the store, if any. */
  function InHand(phase: Phase): seq<Stamp> {
    match phase
    case InFlight(number, startedAt, _) => [Stamp(number, startedAt)]
    case Ended(record) => [Stamp(record.attemptNumber, record.attemptedAt)]
    case _ => []
  }

  ghost predicate AccountOk(id: string, data: ServiceData, t: Trace, phase: Phase) {
    && data.state.restartCount == |t.records|
    && data.restarts == LastN(t.records, MAX_RESTART_RECORDS)
    && Started(t) == Recorded(t.records) + InHand(phase)
    && (phase.Ended? ==> phase.record.serviceId == id)
    && forall i :: 0 <= i < |t.records| ==> t.records[i].serviceId == id
  }

  lemma ResetKeepsAccount(id: string, c: Cell, seen: ServiceStatus, phase: Phase)
    requires AccountOk(id, c.data, c.trace, phase)
    ensures var c' := ResetCell(c, seen); AccountOk(id, c'.data, c'.trace, phase)
  {
    ResetKeepsStarted(c, seen);
    hide Started;
    hide Recorded;
    hide LastN;
  }

  lemma PastStampsAppend(past: seq<Episode>, e: Episode)
    ensures PastStamps(past + [e]) == PastStamps(past) + StampsOf(e.attempts)
  {
    assert (past + [e])[..|past|] == past;
  }

  /** Closing an episode moves its attempts to the past and drops none. */
  lemma ResetKeepsStarted(c: Cell, seen: ServiceStatus)
    ensures Started(ResetCell(c, seen).trace) == Started(c.trace)
  {
    PastStampsAppend(c.trace.past, c.trace.open.(closedBy := Some(seen)));
    hide PastStamps;
    assert StampsOf(OPEN.attempts) == [];
  }

  lemma DecideKeepsAccount(id: string, c: Cell, d: Decision, now: Time, evidence: seq<seq<Check>>, phase: Phase)
    requires AccountOk(id, c.data, c.trace, phase) && InHand(phase) == [] && c.recovery.Some?
    ensures var c' := DecideCell(c, d, now, evidence);
      AccountOk(id, c'.data, c'.trace, if d.Start? then InFlight(d.number, now, d.target) else Out)
  {
    if d.Start? {
      var a := Attempt(d.number, d.target, now, None, evidence);
      assert StampsOf(c.trace.open.attempts + [a]) == StampsOf(c.trace.open.attempts) + [Stamp(d.number, now)];
      assert Started(c.trace) == Recorded(c.trace.records);
      assert Started(DecideCell(c, d, now, evidence).trace) == Started(c.trace) + [Stamp(d.number, now)];
    }
  }

  lemma EndKeepsAccount(id: string, c: Cell, phase: Phase, record: RestartRecord, now: Time)
    requires AccountOk(id, c.data, c.trace, phase) && phase.InFlight? && c.recovery.Some?
    requires record.serviceId == id && record.attemptNumber == phase.number && record.attemptedAt == phase.startedAt
    ensures var c' := EndCell(c, now); AccountOk(id, c'.data, c'.trace, Ended(record))
  {
    assert StampsOf(EndCell(c, now).trace.open.attempts) == StampsOf(c.trace.open.attempts);
  }

  lemma RecordKeepsAccount(id: string, c: Cell, record: RestartRecord)
    requires AccountOk(id, c.data, c.trace, Ended(record))
    ensures var c' := RecordCell(c, record); AccountOk(id, c'.data, c'.trace, Out)
  {
    PushBoundedKeepsLastN(c.trace.records, record, MAX_RESTART_RECORDS);
    assert Recorded(c.trace.records + [record]) == Recorded(c.trace.records) + InHand(Ended(record));
  }
}

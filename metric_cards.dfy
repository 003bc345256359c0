/**
 * The emulator dashboard's summary cards (src/components/emulators/metric-cards.tsx): how many
 * emulators there are, how many are connected or disconnected, and when the latest one changed.
 *
 * A timestamp is the millisecond count `new Date(updatedAt).getTime()` gives; `None` stands
 * for an `updatedAt` that does not parse (an Invalid Date, whose comparisons are all false).
 */
module MetricCards {
  import opened Wrappers
  import opened Seqs

  datatype Status = CONNECTED | DISCONNECTED

  /** The fields the cards read. */
  datatype Emulator = Emulator(status: Status, updatedAt: Option<int>)

  function HasStatus(s: Status): Emulator -> bool {
    (e: Emulator) => e.status == s
  }

  /** `emulators.filter((e) => e.status === s).length`. */
  function CountWithStatus(emulators: seq<Emulator>, s: Status): (n: nat)
    ensures n <= |emulators|
  {
    |Filter(emulators, HasStatus(s))|
  }

  /** Every emulator is counted in exactly one of the two status cards. */
  lemma {:induction false} CountsAddUp(emulators: seq<Emulator>)
    ensures CountWithStatus(emulators, CONNECTED) + CountWithStatus(emulators, DISCONNECTED) == |emulators|
  {
    if emulators != [] {
      var rest := emulators[1..];
      assert emulators == [emulators[0]] + rest;
      FilterConcat([emulators[0]], rest, HasStatus(CONNECTED));
      FilterConcat([emulators[0]], rest, HasStatus(DISCONNECTED));
      CountsAddUp(rest);
    }
  }

  /**
   * The `reduce` step: a parseable timestamp strictly later than the running one replaces it.
   */
  function Later(latest: int, e: Emulator): int {
    if e.updatedAt.Some? && e.updatedAt.value > latest then e.updatedAt.value else latest
  }

  /** `emulators.reduce(..., new Date(0))`, left to right from `latest`. */
  function LatestFrom(latest: int, emulators: seq<Emulator>): (newest: int)
    ensures newest >= latest
    decreases |emulators|
  {
    if emulators == [] then latest else LatestFrom(Later(latest, emulators[0]), emulators[1..])
  }

  function LatestUpdate(emulators: seq<Emulator>): int {
    LatestFrom(0, emulators)
  }

  /** The fold yields the largest of the start and every parseable timestamp. */
  lemma {:induction false} LatestFromIsMaximum(latest: int, emulators: seq<Emulator>)
    ensures LatestFrom(latest, emulators) >= latest
    ensures forall i :: 0 <= i < |emulators| && emulators[i].updatedAt.Some? ==>
      emulators[i].updatedAt.value <= LatestFrom(latest, emulators)
    ensures LatestFrom(latest, emulators) == latest ||
      exists i :: 0 <= i < |emulators| && emulators[i].updatedAt == Some(LatestFrom(latest, emulators))
    decreases |emulators|
  {
    if emulators != [] {
      var next := Later(latest, emulators[0]);
      var rest := emulators[1..];
      LatestFromIsMaximum(next, rest);
      var r := LatestFrom(latest, emulators);
      assert forall i :: 1 <= i < |emulators| ==> emulators[i] == rest[i - 1];
      if r != latest && r != next {
        var j :| 0 <= j < |rest| && rest[j].updatedAt == Some(r);
        assert emulators[j + 1].updatedAt == Some(r);
      } else if r != latest {
        assert emulators[0].updatedAt == Some(r);
      }
    }
  }

  /** What the last card shows: "N/A", or a formatted instant. */
  datatype LastUpdate = NotAvailable | At(time: int)

  /** `latestUpdate.getTime() === new Date(0).getTime() ? "N/A" : format(latestUpdate, ...)`. */
  function FormattedLastUpdate(emulators: seq<Emulator>): (shown: LastUpdate)
    ensures shown == NotAvailable <==> LatestUpdate(emulators) == 0
    ensures shown.At? ==> shown.time == LatestUpdate(emulators) && shown.time > 0
  {
    var latest := LatestUpdate(emulators);
    if latest == 0 then NotAvailable else At(latest)
  }

  /**
   * "N/A" shows exactly when no emulator has a parseable timestamp after the epoch: an empty
   * list, only unparseable dates, or dates at or before 1 January 1970.
   */
  lemma NotAvailableIff(emulators: seq<Emulator>)
    ensures FormattedLastUpdate(emulators) == NotAvailable <==>
      forall i :: 0 <= i < |emulators| && emulators[i].updatedAt.Some? ==> emulators[i].updatedAt.value <= 0
  {
    LatestFromIsMaximum(0, emulators);
  }

  /** Any shown instant is one of the emulators' own timestamps, and none is later. */
  lemma ShownInstantIsLatest(emulators: seq<Emulator>)
    requires FormattedLastUpdate(emulators).At?
    ensures exists i :: 0 <= i < |emulators| && emulators[i].updatedAt == Some(FormattedLastUpdate(emulators).time)
    ensures forall i :: 0 <= i < |emulators| && emulators[i].updatedAt.Some? ==>
      emulators[i].updatedAt.value <= FormattedLastUpdate(emulators).time
  {
    LatestFromIsMaximum(0, emulators);
  }
}

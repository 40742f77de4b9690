/**
 * Worked cases for the half-hour calculator on small snapshots: business
 * hours 09:00 (540) to 17:00 (1020) on Mondays; ordinal 8 is a Monday.
 */
module SlotExamples {
  import opened Wrappers
  import opened Slots
  import opened Agenda
  import opened FrontendAvailability

  function Snapshot(cierre: int, duracion: int, citas: seq<BookedRow>): Store
  {
    Store([], [ConfigRow(0, true, 540, cierre)], [ServiceRow("s", duracion, true)], citas)
  }

  /** A 480-minute service in an eight-hour day has one slot, 09:00, ending exactly at closing. */
  lemma EndAtClosingIsAllowed()
    ensures AvailableSlots("s", 8, 1, 0, Snapshot(1020, 480, [])) == Available([540])
  {
  }

  /** A 45-minute service between 09:00 and 10:00 has only 09:00: 09:30 would end at 10:15. */
  lemma GridIsHalfHourly()
    ensures AvailableSlots("s", 8, 1, 0, Snapshot(600, 45, [])) == Available([540])
  {
  }

  /** The morning's bookings: a confirmed one at 10:00 and a cancelled one at 12:00, both of 60 minutes. */
  function Morning(): seq<BookedRow>
  {
    [BookedRow(8, 600, Confirmada, 60), BookedRow(8, 720, Cancelada, 60)]
  }

  /** Only the confirmed booking occupies time: the cancelled one leaves no interval. */
  lemma MorningBusy()
    ensures Occupied(Morning(), 8) == [Busy(600, 60)]
  {
  }

  /** A 30-minute walk from 09:00 to 12:30 around a 10:00-11:00 booking skips 10:00 and 10:30. */
  lemma MorningWalk()
    ensures Walk(540, 750, 30, 30, [Busy(600, 60)]) == [540, 570, 660, 690, 720]
  {
    var busy := [Busy(600, 60)];
    assert Walk(750, 750, 30, 30, busy) == [];
    assert Walk(720, 750, 30, 30, busy) == [720];
    assert Walk(690, 750, 30, 30, busy) == [690, 720];
    assert Walk(660, 750, 30, 30, busy) == [660, 690, 720];
    assert Walk(630, 750, 30, 30, busy) == [660, 690, 720];
    assert Walk(600, 750, 30, 30, busy) == [660, 690, 720];
    assert Walk(570, 750, 30, 30, busy) == [570, 660, 690, 720];
  }

  /**
   * In a morning closing at 12:30 (750), a non-cancelled 60-minute booking at
   * 10:00 takes 10:00 and 10:30 from a 30-minute service; a cancelled booking
   * at 12:00 blocks nothing, and the last slot ends exactly at closing.
   */
  lemma BookingBlocksItsInterval()
    ensures AvailableSlots("s", 8, 1, 0, Snapshot(750, 30, Morning())) == Available([540, 570, 660, 690, 720])
  {
    MorningBusy();
    MorningWalk();
  }

  /** Today at 10:05, the first candidate is 10:30 and no earlier slot is offered. */
  lemma TodayStartsAtNextHalfHour()
    ensures
      var r := AvailableSlots("s", 8, 8, 605, Snapshot(1020, 30, []));
      && r.Available? && r.slots != [] && r.slots[0] == 630
      && forall s :: s in r.slots ==> s >= 630
  {
    assert CutoffStart(540, 605, 30) == 630;
    SlotsMeetSpec("s", 8, 8, 605, Snapshot(1020, 30, []));
  }
}

/** The feeding-control page: the list of feeding schedules with its add,
    delete and toggle operations, the portion catalog, and the flags of the
    manual-feed controls. */
module Control {
  import opened Decimal
  import opened Days
  import opened Keyed

  datatype Portion = Small | Medium | Large

  datatype PortionInfo = PortionInfo(amount: nat, duration: nat)

  /** The fixed catalog: grams dispensed and seconds the feeder runs. */
  function PortionSizes(p: Portion): (info: PortionInfo)
    ensures 0 < info.amount && 1 <= info.duration <= 10
  {
    match p
    case Small => PortionInfo(3, 2)
    case Medium => PortionInfo(5, 3)
    case Large => PortionInfo(8, 5)
  }

  /** A larger portion dispenses more food and runs the feeder longer. */
  lemma PortionsGrow(p: Portion, q: Portion)
    requires (p == Small && q != Small) || (p == Medium && q == Large)
    ensures PortionSizes(p).amount < PortionSizes(q).amount
    ensures PortionSizes(p).duration < PortionSizes(q).duration
  {
  }

  /** A schedule record. `time` is whatever the time input produced; no
      code checks its `HH:MM` shape, nor the range of `days`. */
  datatype Schedule = Schedule(id: string, time: string, enabled: bool, portion: Portion, days: seq<int>)

  /** The add-form's staged values. */
  datatype Draft = Draft(time: string, portion: Portion, days: seq<int>)

  const EveryDay: seq<int> := [1, 2, 3, 4, 5, 6, 0]

  const DefaultDraft := Draft("09:00", Medium, EveryDay)

  const InitialSchedules: seq<Schedule> := [
    Schedule("1", "08:30", true, Medium, EveryDay),
    Schedule("2", "12:00", true, Medium, EveryDay),
    Schedule("3", "18:30", true, Medium, EveryDay),
    Schedule("4", "22:00", false, Small, [6, 0])
  ]

  /** The list after `addSchedule`: one record more at the end, built from
      the draft and switched on; its id is the decimal text of the new length. */
  function ScheduleAdded(s: seq<Schedule>, draft: Draft): (r: seq<Schedule>)
    ensures |r| == |s| + 1 && r[..|s|] == s
    ensures r[|s|].enabled
    ensures r[|s|].time == draft.time && r[|s|].portion == draft.portion && r[|s|].days == draft.days
    ensures r[|s|].id == NatToString(|s| + 1)
    ensures AllDigits(r[|s|].id) && ParseNat(r[|s|].id) == |s| + 1
  {
    ParseNatToString(|s| + 1);
    s + [Schedule(NatToString(|s| + 1), draft.time, true, draft.portion, draft.days)]
  }

  /** The key both `deleteSchedule` and the toggles compare with. */
  function ScheduleId(x: Schedule): string
  {
    x.id
  }

  /** Ids are not unique: when the last record's id is the list's length,
      deleting any other record with an id of its own and then adding one
      gives the new record the id the last record already has. */
  lemma DeleteThenAddDuplicatesId(s: seq<Schedule>, k: nat, draft: Draft)
    requires 2 <= |s| && k < |s| - 1
    requires s[|s| - 1].id == NatToString(|s|)
    requires forall j :: 0 <= j < |s| && j != k ==> s[j].id != s[k].id
    ensures var r := ScheduleAdded(Without(s, ScheduleId, s[k].id), draft);
      |r| == |s| && r[|s| - 1].id == r[|s| - 2].id == NatToString(|s|)
  {
    assert s[k].id == ScheduleId(s[k]);
    WithoutOne(s, ScheduleId, k);
    var d := Without(s, ScheduleId, s[k].id);
    assert |d| == |s| - 1 && d[|d| - 1] == s[|s| - 1];
    var r := ScheduleAdded(d, draft);
    assert r[|d| - 1] == r[..|d|][|d| - 1] == d[|d| - 1];
  }

  /** The page's own list shows it: deleting "2" and adding gives two "4"s,
      and a later delete of "4" takes both records away. */
  lemma InitialIdsCollide()
    ensures var r := ScheduleAdded(Without(InitialSchedules, ScheduleId, "2"), DefaultDraft);
      |r| == 4 && r[2].id == "4" && r[3].id == "4" &&
      Without(r, ScheduleId, "4") == [InitialSchedules[0], InitialSchedules[2]]
  {
    assert NatToString(4) == "4";
    assert ScheduleId(InitialSchedules[1]) == "2";
    DeleteThenAddDuplicatesId(InitialSchedules, 1, DefaultDraft);
    var r := ScheduleAdded(Without(InitialSchedules, ScheduleId, "2"), DefaultDraft);
    assert r[..2] == [InitialSchedules[0], InitialSchedules[2]] by {
      WithoutOne(InitialSchedules, ScheduleId, 1);
    }
    assert r == r[..2] + r[2..];
    WithoutConcat(r[..2], r[2..], ScheduleId, "4");
    assert Without(r[2..], ScheduleId, "4") == [] by {
      assert r[2..][1..][1..] == [];
    }
  }

  /** `toggleSchedule`'s rewrite of one record. */
  function FlipEnabled(x: Schedule): (y: Schedule)
    ensures y.enabled != x.enabled && y.(enabled := x.enabled) == x
  {
    x.(enabled := !x.enabled)
  }

  /** The list after `toggleSchedule(id)`: matching records flip `enabled`,
      everything else stays as it was. */
  function ScheduleToggled(s: seq<Schedule>, id: string): (r: seq<Schedule>)
    ensures |r| == |s|
    ensures forall i :: 0 <= i < |s| && s[i].id != id ==> r[i] == s[i]
    ensures forall i :: 0 <= i < |s| && s[i].id == id ==>
      r[i] == s[i].(enabled := !s[i].enabled)
  {
    MapWhere(s, ScheduleId, id, FlipEnabled)
  }

  /** Toggling the same schedule twice restores the list. */
  lemma ScheduleToggledTwice(s: seq<Schedule>, id: string)
    ensures ScheduleToggled(ScheduleToggled(s, id), id) == s
  {
    var twice := ScheduleToggled(ScheduleToggled(s, id), id);
    forall i | 0 <= i < |s| ensures twice[i] == s[i] {
    }
  }

  /** The list after `toggleDay(id, day)`: matching records get their days
      toggled, everything else stays as it was. */
  function DayToggled(s: seq<Schedule>, id: string, day: int): (r: seq<Schedule>)
    ensures |r| == |s|
    ensures forall i :: 0 <= i < |s| && s[i].id != id ==> r[i] == s[i]
    ensures forall i :: 0 <= i < |s| && s[i].id == id ==>
      r[i] == s[i].(days := ToggleDays(s[i].days, day))
  {
    MapWhere(s, ScheduleId, id, (x: Schedule) => x.(days := ToggleDays(x.days, day)))
  }

  /** Toggling the same day of the same schedule twice leaves every record
      with the same fields and the same set of days. */
  lemma DayToggledTwice(s: seq<Schedule>, id: string, day: int)
    ensures var r := DayToggled(DayToggled(s, id, day), id, day);
      |r| == |s| &&
      forall i :: 0 <= i < |s| ==>
        r[i].(days := s[i].days) == s[i] &&
        forall x :: x in r[i].days <==> x in s[i].days
  {
    var r := DayToggled(DayToggled(s, id, day), id, day);
    forall i | 0 <= i < |s|
      ensures r[i].(days := s[i].days) == s[i]
      ensures forall x :: x in r[i].days <==> x in s[i].days
    {
      if s[i].id == id {
        ToggleDaysTwiceSameSet(s[i].days, day);
      }
    }
  }

  ghost predicate AllInWeek(s: seq<Schedule>)
  {
    forall i :: 0 <= i < |s| ==> InWeek(s[i].days)
  }

  /** The day buttons pass 0..6 only, so schedules keep their days in range. */
  lemma DayToggledInWeek(s: seq<Schedule>, id: string, day: int)
    requires AllInWeek(s) && 0 <= day <= 6
    ensures AllInWeek(DayToggled(s, id, day))
  {
    var r := DayToggled(s, id, day);
    forall i | 0 <= i < |r| ensures InWeek(r[i].days) {
      if s[i].id == id { ToggleDaysInWeek(s[i].days, day); }
    }
  }

  /** The control page's state. Each handler replaces the fields the source
      sets through its state setters. */
  class ControlPanel {
    var schedules: seq<Schedule>
    var draft: Draft
    var showAddSchedule: bool
    var isFeeding: bool
    var feedingProgress: real
    var selectedPortion: Portion
    var customDuration: int

    constructor ()
      ensures schedules == InitialSchedules && draft == DefaultDraft && !showAddSchedule
      ensures !isFeeding && feedingProgress == 0.0
      ensures selectedPortion == Medium && customDuration == PortionSizes(Medium).duration
    {
      schedules := InitialSchedules;
      draft := DefaultDraft;
      showAddSchedule := false;
      isFeeding := false;
      feedingProgress := 0.0;
      selectedPortion := Medium;
      customDuration := 3;
    }

    /** The "add schedule" button opens and closes the form. */
    method ToggleAddForm()
      modifies this`showAddSchedule
      ensures showAddSchedule == !old(showAddSchedule)
    {
      showAddSchedule := !showAddSchedule;
    }

    /** The form's cancel button closes it; the draft is kept. */
    method CancelAddForm()
      modifies this`showAddSchedule
      ensures !showAddSchedule
    {
      showAddSchedule := false;
    }

    method SetDraftTime(time: string)
      modifies this`draft
      ensures draft == old(draft).(time := time)
    {
      draft := draft.(time := time);
    }

    method SetDraftPortion(p: Portion)
      modifies this`draft
      ensures draft == old(draft).(portion := p)
    {
      draft := draft.(portion := p);
    }

    method AddSchedule()
      modifies this`schedules, this`draft, this`showAddSchedule
      ensures schedules == ScheduleAdded(old(schedules), old(draft))
      ensures !showAddSchedule && draft == DefaultDraft
    {
      schedules := ScheduleAdded(schedules, draft);
      showAddSchedule := false;
      draft := DefaultDraft;
    }

    method DeleteSchedule(id: string)
      modifies this`schedules
      ensures schedules == Without(old(schedules), ScheduleId, id)
    {
      schedules := Without(schedules, ScheduleId, id);
    }

    method ToggleSchedule(id: string)
      modifies this`schedules
      ensures schedules == ScheduleToggled(old(schedules), id)
    {
      schedules := ScheduleToggled(schedules, id);
    }

    method ToggleDay(id: string, day: int)
      modifies this`schedules
      ensures schedules == DayToggled(old(schedules), id, day)
    {
      schedules := DayToggled(schedules, id, day);
    }

    /** Clicking a portion selects it and sets the duration slider to the
        catalog's duration for it. */
    method SelectPortion(p: Portion)
      modifies this`selectedPortion, this`customDuration
      ensures selectedPortion == p && customDuration == PortionSizes(p).duration
      ensures 1 <= customDuration <= 10
    {
      selectedPortion := p;
      customDuration := PortionSizes(p).duration;
    }

    /** The synchronous start of `startFeeding`: a run already in progress
        makes it return at once; otherwise the feeding flag goes up and the
        progress starts from zero. */
    method StartFeeding()
      modifies this`isFeeding, this`feedingProgress
      ensures old(isFeeding) ==> isFeeding && feedingProgress == old(feedingProgress)
      ensures !old(isFeeding) ==> isFeeding && feedingProgress == 0.0
    {
      if isFeeding {
        return;
      }
      isFeeding := true;
      feedingProgress := 0.0;
    }

    /** The emergency stop lowers the flag and clears the progress bar. */
    method EmergencyStop()
      modifies this`isFeeding, this`feedingProgress
      ensures !isFeeding && feedingProgress == 0.0
    {
      isFeeding := false;
      feedingProgress := 0.0;
    }
  }
}

/**
 * The medicine reminder screen (frontend/screens/Health.js): a medicine is
 * picked from a fixed list, or typed in after choosing "Other", a time is
 * chosen, and `addReminder` appends the pair to the list.
 */
module HealthScreen {
  import opened Wrappers

  /** A clock reading, as `new Date()` gives it. */
  type Instant = nat

  /** One entry of the list: the medicine and the time as the locale shows hours and minutes. */
  datatype Reminder = Reminder(name: string, time: string)

  const OtherMedicine: string := "Other"

  const AvailableMedicines: seq<string> := ["Vitamin C", "Multivitamin", "Calcium", "Omega-3", OtherMedicine]

  /** The name a reminder gets: the typed text when "Other" is selected, else the selection. */
  function MedicineName(selected: string, custom: string): (name: string)
    ensures selected == OtherMedicine ==> name == custom
    ensures selected != OtherMedicine ==> name == selected
  {
    if selected == OtherMedicine then custom else selected
  }

  /** Picking from the list names the medicine itself, except "Other", which names the typed text. */
  lemma ListedNameIsKept(k: nat, custom: string)
    requires k < |AvailableMedicines|
    ensures k < |AvailableMedicines| - 1 ==> MedicineName(AvailableMedicines[k], custom) == AvailableMedicines[k]
    ensures k == |AvailableMedicines| - 1 ==> MedicineName(AvailableMedicines[k], custom) == custom
  {
  }

  class MedicineReminders {
    var selectedMedicine: string
    var customMedicine: string
    var reminderTime: Instant
    var medicineData: seq<Reminder>
    var showTimePicker: bool

    /** No reminder in the list has an empty name. */
    ghost predicate Valid()
      reads this
    {
      forall i | 0 <= i < |medicineData| :: medicineData[i].name != ""
    }

    constructor (now: Instant)
      ensures Valid()
      ensures selectedMedicine == "" && customMedicine == "" && reminderTime == now
      ensures medicineData == [] && !showTimePicker
    {
      selectedMedicine := "";
      customMedicine := "";
      reminderTime := now;
      medicineData := [];
      showTimePicker := false;
    }

    /** Focusing the medicine field clears the selection. */
    method FocusName()
      modifies this
      ensures selectedMedicine == ""
      ensures customMedicine == old(customMedicine) && reminderTime == old(reminderTime)
      ensures medicineData == old(medicineData) && showTimePicker == old(showTimePicker)
    {
      selectedMedicine := "";
    }

    /**
     * Typing in the field shown for "Other" replaces the custom name. The screen
     * shows that field only while "Other" is selected; the method is more
     * permissive and may be called in any state, which `MedicineName` makes harmless.
     */
    method TypeCustom(text: string)
      modifies this
      ensures customMedicine == text
      ensures selectedMedicine == old(selectedMedicine) && reminderTime == old(reminderTime)
      ensures medicineData == old(medicineData) && showTimePicker == old(showTimePicker)
    {
      customMedicine := text;
    }

    /** The time button opens the picker. */
    method OpenPicker()
      modifies this
      ensures showTimePicker
      ensures selectedMedicine == old(selectedMedicine) && customMedicine == old(customMedicine)
      ensures reminderTime == old(reminderTime) && medicineData == old(medicineData)
    {
      showTimePicker := true;
    }

    /** Tapping a medicine of the list selects it. */
    method Select(k: nat)
      requires k < |AvailableMedicines|
      modifies this
      ensures selectedMedicine == AvailableMedicines[k]
      ensures customMedicine == old(customMedicine) && reminderTime == old(reminderTime)
      ensures medicineData == old(medicineData) && showTimePicker == old(showTimePicker)
    {
      selectedMedicine := AvailableMedicines[k];
    }

    /** `onTimeChange`: a chosen time replaces the reminder time; the picker closes either way. */
    method OnTimeChange(selectedDate: Option<Instant>)
      modifies this
      ensures reminderTime == if selectedDate.Some? then selectedDate.value else old(reminderTime)
      ensures !showTimePicker
      ensures selectedMedicine == old(selectedMedicine) && customMedicine == old(customMedicine)
      ensures medicineData == old(medicineData)
    {
      if selectedDate.Some? {
        reminderTime := selectedDate.value;
      }
      showTimePicker := false;
    }

    /**
     * `addReminder`: without a name nothing changes; otherwise exactly one
     * reminder is appended after the existing ones, and the selection, the
     * typed text and the time are reset. The stored time is the reminder
     * time as `render`, the locale's hours-and-minutes format, shows it.
     */
    method AddReminder(render: Instant -> string, now: Instant)
      requires Valid()
      modifies this
      ensures Valid()
      ensures MedicineName(old(selectedMedicine), old(customMedicine)) == "" ==> unchanged(this)
      ensures MedicineName(old(selectedMedicine), old(customMedicine)) != "" ==>
        && medicineData == old(medicineData) + [Reminder(MedicineName(old(selectedMedicine), old(customMedicine)),
                                                         render(old(reminderTime)))]
        && selectedMedicine == "" && customMedicine == "" && reminderTime == now
        && showTimePicker == old(showTimePicker)
    {
      var medicineName := if selectedMedicine == OtherMedicine then customMedicine else selectedMedicine;
      if medicineName == "" {
        return;
      }
      var newReminder := Reminder(medicineName, render(reminderTime));
      medicineData := medicineData + [newReminder];
      selectedMedicine := "";
      customMedicine := "";
      reminderTime := now;
    }
  }
}

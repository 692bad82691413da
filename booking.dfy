/** The four-step booking form of the public site (`initializeBookingSystem`
    in main.js): service choice, date and time slot, contact details,
    review. The page's selection classes and button states are fields. */
module Booking {
  import opened Text
  import opened Lists
  import opened Fields

  /** `totalSteps`, also the number of step indicators. */
  const StepCount: int := 4

  /** The slots `generateTimeSlots` offers for any date. */
  const TimeSlots: seq<string> := ["9:00 AM", "10:00 AM", "11:00 AM", "12:00 PM",
                                   "1:00 PM", "2:00 PM", "3:00 PM", "4:00 PM",
                                   "5:00 PM", "6:00 PM", "7:00 PM", "8:00 PM"]

  /** The step-3 inputs in checking order, with the names the messages use
      and the input types `validateField` sees. */
  const FieldNames: seq<string> := ["First Name", "Last Name", "Email Address", "Phone Number", "Service Location"]
  const FieldKinds: seq<FieldKind> := [PlainField, PlainField, EmailField, TelField, PlainField]
  const EmailIndex: nat := 2
  const PhoneIndex: nat := 3

  const NoServiceMessage: string := "Please select a service to continue."
  const NoDateMessage: string := "Please select a date for your appointment."
  const NoSlotMessage: string := "Please select a time slot for your appointment."
  const BadEmailMessage: string := "Please enter a valid email address."

  /** The disabled state of the three "next" buttons. */
  datatype NextButtons = NextButtons(step1Disabled: bool, step2Disabled: bool, step3Disabled: bool)

  /** The number of marked entries. */
  function Count(marks: seq<bool>): nat {
    if marks == [] then 0 else Count(marks[..|marks| - 1]) + (if marks[|marks| - 1] then 1 else 0)
  }

  predicate AnyMarked(marks: seq<bool>) {
    exists i :: 0 <= i < |marks| && marks[i]
  }

  /** Nothing is marked exactly when the count is zero. */
  lemma {:induction false} CountZeroIffNone(marks: seq<bool>)
    ensures Count(marks) == 0 <==> !AnyMarked(marks)
  {
    if marks != [] {
      var init := marks[..|marks| - 1];
      CountZeroIffNone(init);
      assert forall i :: 0 <= i < |init| ==> init[i] == marks[i];
    }
  }

  /** Entry `k` alone marked: the count is one (zero when `k` is out of range). */
  lemma {:induction false} CountOnly(marks: seq<bool>, k: int)
    requires forall i :: 0 <= i < |marks| ==> (marks[i] <==> i == k)
    ensures Count(marks) == if 0 <= k < |marks| then 1 else 0
  {
    if marks != [] {
      var init := marks[..|marks| - 1];
      assert forall i :: 0 <= i < |init| ==> (init[i] <==> i == k) by {
        assert forall i :: 0 <= i < |init| ==> init[i] == marks[i];
      }
      CountOnly(init, k);
    }
  }

  /** The click handlers' loop: clear every mark, then mark entry `k`. */
  method MarkOnly(marks: seq<bool>, k: int) returns (r: seq<bool>)
    ensures |r| == |marks|
    ensures forall i :: 0 <= i < |r| ==> (r[i] <==> i == k)
    ensures Count(r) == if 0 <= k < |marks| then 1 else 0
  {
    r := marks;
    var i := 0;
    while i < |r|
      invariant 0 <= i <= |r| == |marks|
      invariant forall j :: 0 <= j < i ==> !r[j]
    {
      r := r[i := false];
      i := i + 1;
    }
    if 0 <= k < |r| {
      r := r[k := true];
    }
    CountOnly(r, k);
  }

  /** `validateStep1`. */
  function Step1Error(serviceSelected: seq<bool>): (e: Option<string>)
    ensures e.None? <==> AnyMarked(serviceSelected)
  {
    if AnyMarked(serviceSelected) then None else Some(NoServiceMessage)
  }

  /** `validateStep2`: the date first, then the slot. */
  function Step2Error(date: string, slotSelected: seq<bool>): (e: Option<string>)
    ensures e.None? <==> date != "" && AnyMarked(slotSelected)
    ensures date == "" ==> e == Some(NoDateMessage)
  {
    if date == "" then Some(NoDateMessage) else if !AnyMarked(slotSelected) then Some(NoSlotMessage) else None
  }

  predicate IsBlankValue(value: string) {
    Trim(value) == ""
  }

  /** `validateStep3`: the first blank field by name, else the email format
      of the untrimmed email input; the phone format is not looked at. */
  function Step3Error(details: seq<string>): (e: Option<string>)
    requires |details| == |FieldNames|
    ensures e.None? <==> (forall i :: 0 <= i < |details| ==> Trim(details[i]) != "")
                         && IsValidEmail(details[EmailIndex])
  {
    var k := FirstIndex(details, IsBlankValue);
    if k >= 0 then Some("Please enter your " + FieldNames[k] + ".")
    else if !IsValidEmail(details[EmailIndex]) then Some(BadEmailMessage)
    else None
  }

  /** The message names the first blank field. */
  lemma {:induction false} Step3NamesFirstBlank(details: seq<string>, k: nat)
    requires |details| == |FieldNames| && k < |details|
    requires Trim(details[k]) == "" && forall j :: 0 <= j < k ==> Trim(details[j]) != ""
    ensures Step3Error(details) == Some("Please enter your " + FieldNames[k] + ".")
  {
    assert IsBlankValue(details[k]);
  }

  /** Changing a filled-in phone number never changes the step-3 verdict. */
  lemma {:induction false} Step3IgnoresPhoneFormat(details: seq<string>, phone: string)
    requires |details| == |FieldNames|
    requires Trim(details[PhoneIndex]) != "" && Trim(phone) != ""
    ensures Step3Error(details[PhoneIndex := phone]).None? <==> Step3Error(details).None?
  {
    var d := details[PhoneIndex := phone];
    assert forall i :: 0 <= i < |d| && i != PhoneIndex ==> d[i] == details[i];
  }

  /** `checkStep3Completion`: every field non-blank and accepted by the
      booking `validateField`. */
  predicate Step3Ready(details: seq<string>)
    requires |details| == |FieldNames|
  {
    forall i :: 0 <= i < |details| ==> Trim(details[i]) != "" && FieldValid(FieldKinds[i], details[i])
  }

  /** When the email has no surrounding whitespace, an enabled step-3 button
      means the click passes `validateStep3`. */
  lemma {:induction false} ReadyPassesStep3(details: seq<string>)
    requires |details| == |FieldNames| && Step3Ready(details)
    requires Trim(details[EmailIndex]) == details[EmailIndex]
    ensures Step3Error(details).None?
  {
    assert FieldValid(FieldKinds[EmailIndex], details[EmailIndex]);
  }

  class BookingForm {
    var currentStep: int
    /** The `active` class of each step indicator. */
    var indicators: seq<bool>
    /** The `selected` class of each service option. */
    var serviceSelected: seq<bool>
    /** The date input. */
    var date: string
    /** The `selected` class of each rendered time slot; empty while the
        container holds the "select a date first" text. */
    var slotSelected: seq<bool>
    /** First name, last name, email, phone and location, as typed. */
    var details: seq<string>
    var buttons: NextButtons

    ghost predicate Valid()
      reads this
    {
      && 1 <= currentStep <= StepCount
      && |indicators| == StepCount
      && (forall i :: 0 <= i < |indicators| ==> (indicators[i] <==> i + 1 == currentStep))
      && Count(serviceSelected) <= 1
      && (slotSelected == [] || |slotSelected| == |TimeSlots|) && Count(slotSelected) <= 1
      && |details| == |FieldNames|
    }

    /** The form as the page opens it: step 1 shown, nothing chosen or typed,
        every "next" button disabled. */
    constructor(serviceCount: nat)
      ensures Valid()
      ensures currentStep == 1 && indicators == [true, false, false, false]
      ensures serviceSelected == seq(serviceCount, _ => false) && date == "" && slotSelected == []
      ensures details == ["", "", "", "", ""] && buttons == NextButtons(true, true, true)
    {
      currentStep := 1;
      indicators := [true, false, false, false];
      serviceSelected := seq(serviceCount, _ => false);
      date := "";
      slotSelected := [];
      details := ["", "", "", "", ""];
      buttons := NextButtons(true, true, true);
      new;
      CountOnly(serviceSelected, -1);
      CountOnly(indicators, 0);
    }

    /** `updateStepIndicators(n)`: only indicator `n - 1` is active. */
    method UpdateStepIndicators(n: int)
      modifies this
      ensures |indicators| == |old(indicators)|
      ensures forall i :: 0 <= i < |indicators| ==> (indicators[i] <==> i + 1 == n)
      ensures currentStep == old(currentStep) && serviceSelected == old(serviceSelected) && date == old(date)
      ensures slotSelected == old(slotSelected) && details == old(details) && buttons == old(buttons)
    {
      indicators := MarkOnly(indicators, n - 1);
    }

    /** `generateTimeSlots`: the twelve slots, none selected. */
    method GenerateTimeSlots()
      modifies this
      ensures slotSelected == seq(|TimeSlots|, _ => false) && Count(slotSelected) == 0
      ensures currentStep == old(currentStep) && indicators == old(indicators)
      ensures serviceSelected == old(serviceSelected) && date == old(date)
      ensures details == old(details) && buttons == old(buttons)
    {
      slotSelected := seq(|TimeSlots|, _ => false);
      CountOnly(slotSelected, -1);
    }

    /** `showStep(n)`: make `n` current and update the indicators. Showing
        step 2 runs the date/time set-up, which redraws the slots (losing
        the chosen one) when a date is already set. */
    method ShowStep(n: int)
      requires Valid()
      modifies this
      ensures 1 <= n <= StepCount ==> Valid()
      ensures currentStep == n
      ensures forall i :: 0 <= i < |indicators| ==> (indicators[i] <==> i + 1 == n)
      ensures slotSelected == if n == 2 && date != "" then seq(|TimeSlots|, _ => false) else old(slotSelected)
      ensures serviceSelected == old(serviceSelected) && date == old(date)
      ensures details == old(details) && buttons == old(buttons)
    {
      if n == 2 && date != "" {
        GenerateTimeSlots();
      }
      currentStep := n;
      UpdateStepIndicators(n);
    }

    /** A click on service option `k`: it alone is selected, and step 1's
        "next" button is enabled. */
    method SelectService(k: nat)
      requires Valid() && k < |serviceSelected|
      modifies this
      ensures Valid()
      ensures |serviceSelected| == |old(serviceSelected)| && Count(serviceSelected) == 1
      ensures forall i :: 0 <= i < |serviceSelected| ==> (serviceSelected[i] <==> i == k)
      ensures buttons == old(buttons).(step1Disabled := false)
      ensures currentStep == old(currentStep) && date == old(date) && slotSelected == old(slotSelected)
      ensures details == old(details)
    {
      serviceSelected := MarkOnly(serviceSelected, k);
      buttons := buttons.(step1Disabled := false);
    }

    /** `checkStep2Completion`. */
    method CheckStep2Completion()
      modifies this
      ensures buttons == old(buttons).(step2Disabled := !(date != "" && AnyMarked(slotSelected)))
      ensures currentStep == old(currentStep) && indicators == old(indicators)
      ensures serviceSelected == old(serviceSelected) && date == old(date)
      ensures slotSelected == old(slotSelected) && details == old(details)
    {
      buttons := buttons.(step2Disabled := !(date != "" && AnyMarked(slotSelected)));
    }

    /** `handleDateChange`: a date redraws the slots, no date clears them. */
    method ChangeDate(value: string)
      requires Valid()
      modifies this
      ensures Valid()
      ensures date == value && Count(slotSelected) == 0
      ensures slotSelected == if value != "" then seq(|TimeSlots|, _ => false) else []
      ensures buttons == old(buttons).(step2Disabled := true)
      ensures currentStep == old(currentStep) && serviceSelected == old(serviceSelected)
      ensures details == old(details)
    {
      date := value;
      if value != "" {
        GenerateTimeSlots();
      } else {
        slotSelected := [];
      }
      CountZeroIffNone(slotSelected);
      CheckStep2Completion();
    }

    /** A click on time slot `k`: it alone is selected, then
        `checkStep2Completion`. */
    method SelectSlot(k: nat)
      requires Valid() && k < |slotSelected|
      modifies this
      ensures Valid()
      ensures |slotSelected| == |old(slotSelected)| && Count(slotSelected) == 1
      ensures forall i :: 0 <= i < |slotSelected| ==> (slotSelected[i] <==> i == k)
      ensures buttons == old(buttons).(step2Disabled := date == "")
      ensures currentStep == old(currentStep) && serviceSelected == old(serviceSelected) && date == old(date)
      ensures details == old(details)
    {
      slotSelected := MarkOnly(slotSelected, k);
      CountZeroIffNone(slotSelected);
      CheckStep2Completion();
    }

    /** `validateStep3`, field by field with an early return. */
    method ValidateStep3() returns (error: Option<string>)
      requires |details| == |FieldNames|
      ensures error == Step3Error(details)
    {
      var i := 0;
      while i < |FieldNames|
        invariant 0 <= i <= |FieldNames|
        invariant forall j :: 0 <= j < i ==> Trim(details[j]) != ""
      {
        if Trim(details[i]) == "" {
          Step3NamesFirstBlank(details, i);
          return Some("Please enter your " + FieldNames[i] + ".");
        }
        i := i + 1;
      }
      assert FirstIndex(details, IsBlankValue) == -1;
      if !IsValidEmail(details[EmailIndex]) {
        return Some(BadEmailMessage);
      }
      return None;
    }

    /** `checkStep3Completion`. */
    method CheckStep3Completion()
      requires |details| == |FieldNames|
      modifies this
      ensures details == old(details)
      ensures buttons == old(buttons).(step3Disabled := !Step3Ready(details))
      ensures currentStep == old(currentStep) && indicators == old(indicators)
      ensures serviceSelected == old(serviceSelected) && date == old(date)
      ensures slotSelected == old(slotSelected)
    {
      buttons := buttons.(step3Disabled := !Step3Ready(details));
    }

    /** An input event on step-3 field `i`: store the value and recheck. On
        the phone input the page-wide `formatPhoneNumber` listener, attached
        before the booking form's own, rewrites the value first, so the
        check sees the formatted number. */
    method EditDetail(i: nat, value: string)
      requires Valid() && i < |details|
      modifies this
      ensures Valid()
      ensures details == old(details)[i := if i == PhoneIndex then FormatPhone(value) else value]
      ensures buttons == old(buttons).(step3Disabled := !Step3Ready(details))
      ensures currentStep == old(currentStep) && serviceSelected == old(serviceSelected)
      ensures date == old(date) && slotSelected == old(slotSelected)
    {
      details := details[i := value];
      if i == PhoneIndex {
        FormatPhoneInput();
      }
      CheckStep3Completion();
    }

    /** `formatPhoneNumber` on the phone input. */
    method FormatPhoneInput()
      requires Valid()
      modifies this
      ensures Valid()
      ensures details == old(details)[PhoneIndex := FormatPhone(old(details)[PhoneIndex])]
      ensures currentStep == old(currentStep) && serviceSelected == old(serviceSelected)
      ensures date == old(date) && slotSelected == old(slotSelected) && buttons == old(buttons)
    {
      details := details[PhoneIndex := FormatPhone(details[PhoneIndex])];
    }

    /** Step 1 "next": on to step 2 only with a service chosen. */
    method Step1Next()
      requires Valid()
      modifies this
      ensures Valid()
      ensures currentStep == if AnyMarked(serviceSelected) then 2 else old(currentStep)
      ensures slotSelected == if AnyMarked(serviceSelected) && date != "" then seq(|TimeSlots|, _ => false)
                              else old(slotSelected)
      ensures serviceSelected == old(serviceSelected) && date == old(date) && details == old(details)
      ensures buttons == old(buttons)
    {
      if Step1Error(serviceSelected).None? {
        ShowStep(2);
      }
    }

    /** Step 2 "next": on to step 3 only with a date and a slot chosen. */
    method Step2Next()
      requires Valid()
      modifies this
      ensures Valid()
      ensures currentStep == if date != "" && AnyMarked(slotSelected) then 3 else old(currentStep)
      ensures serviceSelected == old(serviceSelected) && date == old(date)
      ensures slotSelected == old(slotSelected) && details == old(details) && buttons == old(buttons)
    {
      if Step2Error(date, slotSelected).None? {
        ShowStep(3);
      }
    }

    /** Step 3 "next": on to the review only when `validateStep3` passes. */
    method Step3Next()
      requires Valid()
      modifies this
      ensures Valid()
      ensures currentStep == if Step3Error(details).None? then 4 else old(currentStep)
      ensures serviceSelected == old(serviceSelected) && date == old(date)
      ensures slotSelected == old(slotSelected) && details == old(details) && buttons == old(buttons)
    {
      var error := ValidateStep3();
      if error.None? {
        ShowStep(4);
      }
    }

    /** Step 2 "back": always to step 1, keeping everything entered. */
    method Step2Back()
      requires Valid()
      modifies this
      ensures Valid() && currentStep == 1
      ensures serviceSelected == old(serviceSelected) && date == old(date)
      ensures slotSelected == old(slotSelected) && details == old(details) && buttons == old(buttons)
    {
      ShowStep(1);
    }

    /** Step 3 "back": always to step 2; with a date set the slots are
        redrawn and none is selected any more. */
    method Step3Back()
      requires Valid()
      modifies this
      ensures Valid() && currentStep == 2
      ensures date != "" ==> slotSelected == seq(|TimeSlots|, _ => false) && Step2Error(date, slotSelected) == Some(NoSlotMessage)
      ensures date == "" ==> slotSelected == old(slotSelected)
      ensures serviceSelected == old(serviceSelected) && date == old(date) && details == old(details)
      ensures buttons == old(buttons)
    {
      ShowStep(2);
      if date != "" {
        CountZeroIffNone(slotSelected);
        CountOnly(slotSelected, -1);
      }
    }

    /** Step 4 "back": always to step 3. */
    method Step4Back()
      requires Valid()
      modifies this
      ensures Valid() && currentStep == 3
      ensures serviceSelected == old(serviceSelected) && date == old(date)
      ensures slotSelected == old(slotSelected) && details == old(details) && buttons == old(buttons)
    {
      ShowStep(3);
    }
  }
}

/**
 * The onboarding page's controller: the React state of `OnboardingPage`
 * as the fields of one object, and each event handler, effect and timer
 * callback as a method. The page's answers are written through to the
 * browser slot after every change, so the slot always holds them.
 */
module Onboarding {
  import opened Wrappers
  import opened Text
  import opened Draft
  import opened Habits
  import opened Offer
  import opened Steps
  import opened Gateways

  /** All of the controller's state at once, for saying what an event changes and what it leaves alone. */
  datatype State = State(
    step: int,
    showFlashSale: bool,
    timeLeft: int,
    seatsLeft: int,
    form: FormData,
    emailError: Option<string>,
    isValidatingEmail: bool,
    slot: Slot)

  /** What pressing "Create Account & Start Journey" leads to. */
  datatype SubmitOutcome =
    | NotSent(message: string)
    | SignupFailed(request: SignupRequest, message: string)
    | QuitAttemptRequested(request: SignupRequest, token: string, productType: ProductType, dailyUsage: int)

  /** The step-5 Continue button is enabled only with a first name, a last name and an email that are not blank. */
  predicate IdentityComplete(d: FormData) {
    Trim(d.firstName) != "" && Trim(d.lastName) != "" && Trim(d.email) != ""
  }

  /** The display name sent with the signup: first and last name joined by a space, trimmed. */
  function FullName(first: string, last: string): string {
    Trim(first + " " + last)
  }

  /** A first and last name with no white space at their outer ends are joined by exactly one space. */
  lemma FullNameJoinsNames(first: string, last: string)
    requires first != [] && !IsSpace(first[0])
    requires last != [] && !IsSpace(last[|last| - 1])
    ensures FullName(first, last) == first + " " + last
  {
    var s := first + " " + last;
    TrimStartKeeps(s);
    TrimEndKeeps(s);
  }

  /** Continue is enabled exactly when none of the three identity fields is all white space. */
  lemma IdentityCompleteIffNotBlank(d: FormData)
    ensures IdentityComplete(d) <==> !Blank(d.firstName) && !Blank(d.lastName) && !Blank(d.email)
  {
  }

  class Controller {
    var step: int
    var showFlashSale: bool
    var timeLeft: int
    var seatsLeft: int
    var form: FormData
    var emailError: Option<string>
    var isValidatingEmail: bool
    /** The `onboarding-progress` browser slot. */
    var slot: Slot

    ghost function Snapshot(): State
      reads this
    {
      State(step, showFlashSale, timeLeft, seatsLeft, form, emailError, isValidatingEmail, slot)
    }

    /**
     * The controller's invariant: the step and both counters are in range,
     * the slot holds the current answers, step 1 never shows a product as
     * chosen, the flash sale and the counters only ever move on the offer
     * step (which cannot be left backwards), and an email check is only in
     * flight before the offer.
     */
    ghost predicate Valid()
      reads this
    {
      FirstStep <= step <= LastStep
      && 0 <= timeLeft <= InitialTimeLeft
      && 1 <= seatsLeft <= InitialSeats
      && slot == Stored(Persist(form))
      && (step == FirstStep ==> form.productType.None?)
      && (showFlashSale ==> step >= 6 && form.declinedInitialOffer)
      && (timeLeft < InitialTimeLeft ==> step >= 6)
      && (seatsLeft < InitialSeats ==> showFlashSale)
      && (isValidatingEmail ==> step <= 5)
    }

    /** Mounting the page: the answers are read back from the slot, then entering step 1 clears the product. */
    constructor (stored: Slot)
      ensures Valid()
      ensures step == FirstStep && !showFlashSale
      ensures timeLeft == InitialTimeLeft && seatsLeft == InitialSeats
      ensures form == Rehydrate(stored).(productType := None)
      ensures emailError == None && !isValidatingEmail
    {
      step := FirstStep;
      showFlashSale := false;
      timeLeft := InitialTimeLeft;
      seatsLeft := InitialSeats;
      var f := Rehydrate(stored).(productType := None);
      form := f;
      emailError := None;
      isValidatingEmail := false;
      slot := Stored(Persist(f));
    }

    /** `setFormData` followed by the auto-save effect. */
    method UpdateForm(f: FormData)
      modifies this
      ensures Snapshot() == old(Snapshot()).(form := f, slot := Stored(Persist(f)))
    {
      form := f;
      slot := Stored(Persist(f));
    }

    /**
     * `nextStep` from one of the question steps 2 to 4, after its answer is
     * recorded: the call the selection handlers schedule 300 ms later.
     */
    method Advance()
      requires Valid() && 2 <= step <= 4
      modifies this
      ensures Valid() && step == Next(old(step)) == old(step) + 1
      ensures Snapshot() == old(Snapshot()).(step := step)
    {
      step := Next(step);
    }

    /** Step 1: choosing a product records it and moves to step 2. */
    method SelectProductType(p: ProductType)
      requires Valid() && step == FirstStep
      modifies this
      ensures Valid()
      ensures form == old(form).(productType := Some(p)) && step == Next(old(step)) == 2
      ensures Snapshot() == old(Snapshot()).(step := step, form := form, slot := slot)
    {
      UpdateForm(form.(productType := Some(p)));
      step := Next(step);
    }

    /** Step 2: choosing one of 1 to 5 per day records it as text and moves to step 3. */
    method SelectDailyUsage(n: nat)
      requires Valid() && step == 2 && 1 <= n <= 5
      modifies this
      ensures Valid()
      ensures form == old(form).(weeklyUsage := NatToString(n)) && step == 3
      ensures ParseOrZero(form.weeklyUsage) == n
      ensures Snapshot() == old(Snapshot()).(step := step, form := form, slot := slot)
    {
      var text := NatToString(n);
      assert ParseOrZero(text) == n by { ParseNatToString(n); }
      UpdateForm(form.(weeklyUsage := text));
      Advance();
    }

    /** Step 3: choosing a unit cost of $6 to $9 records it as text and moves to step 4. */
    method SelectUnitCost(amount: nat)
      requires Valid() && step == 3 && 6 <= amount <= 9
      modifies this
      ensures Valid()
      ensures form == old(form).(monthlySpending := NatToString(amount)) && step == 4
      ensures ParseOrZero(form.monthlySpending) == amount
      ensures Snapshot() == old(Snapshot()).(step := step, form := form, slot := slot)
    {
      var text := NatToString(amount);
      assert ParseOrZero(text) == amount by { ParseNatToString(amount); }
      UpdateForm(form.(monthlySpending := text));
      Advance();
    }

    /** Step 4: choosing a duration bucket records it and moves to step 5. */
    method SelectDuration(i: nat)
      requires Valid() && step == 4 && i < |DurationOptions|
      modifies this
      ensures Valid()
      ensures form == old(form).(duration := DurationOptions[i]) && step == 5
      ensures DurationYears(form.duration) == BucketYears(i)
      ensures Snapshot() == old(Snapshot()).(step := step, form := form, slot := slot)
    {
      BucketYearsAt(i);
      UpdateForm(form.(duration := DurationOptions[i]));
      Advance();
    }

    /** The Back control (steps 2 to 5); arriving on step 1 clears the product. */
    method Back()
      requires Valid() && BackVisible(step)
      modifies this
      ensures Valid()
      ensures step == Prev(old(step)) && step == old(step) - 1
      ensures form == if step == FirstStep then old(form).(productType := None) else old(form)
      ensures Snapshot() == old(Snapshot()).(step := step, form := form, slot := slot)
    {
      step := Prev(step);
      if step == FirstStep {
        UpdateForm(form.(productType := None));
      }
    }

    /** Step 5: typing the first name also rebuilds the display name. */
    method SetFirstName(v: string)
      requires Valid() && step == 5
      modifies this
      ensures Valid()
      ensures form == old(form).(firstName := v, name := FullName(v, old(form).lastName))
      ensures Snapshot() == old(Snapshot()).(form := form, slot := slot)
    {
      UpdateForm(form.(firstName := v, name := FullName(v, form.lastName)));
    }

    /** Step 5: typing the last name also rebuilds the display name. */
    method SetLastName(v: string)
      requires Valid() && step == 5
      modifies this
      ensures Valid()
      ensures form == old(form).(lastName := v, name := FullName(old(form).firstName, v))
      ensures Snapshot() == old(Snapshot()).(form := form, slot := slot)
    {
      UpdateForm(form.(lastName := v, name := FullName(form.firstName, v)));
    }

    /** Step 5: typing the email clears the inline email error. */
    method SetEmail(v: string)
      requires Valid() && step == 5
      modifies this
      ensures Valid()
      ensures form == old(form).(email := v) && emailError == None
      ensures Snapshot() == old(Snapshot()).(form := form, slot := slot, emailError := None)
    {
      UpdateForm(form.(email := v));
      emailError := None;
    }

    method SetPhone(v: string)
      requires Valid() && step == 5
      modifies this
      ensures Valid()
      ensures form == old(form).(phone := v)
      ensures Snapshot() == old(Snapshot()).(form := form, slot := slot)
    {
      UpdateForm(form.(phone := v));
    }

    method SetOptInMessages(b: bool)
      requires Valid() && step == 5
      modifies this
      ensures Valid()
      ensures form == old(form).(optInMessages := b)
      ensures Snapshot() == old(Snapshot()).(form := form, slot := slot)
    {
      UpdateForm(form.(optInMessages := b));
    }

    /** `validateEmail` up to its request: the error is cleared, the check is marked in flight, and the current email is sent. */
    method BeginEmailCheck() returns (email: string)
      requires Valid() && step == 5 && !isValidatingEmail
      modifies this
      ensures Valid()
      ensures email == form.email && isValidatingEmail && emailError == None
      ensures Snapshot() == old(Snapshot()).(emailError := None, isValidatingEmail := true)
    {
      emailError := None;
      isValidatingEmail := true;
      email := form.email;
    }

    /**
     * `validateEmail` after its request, and the Continue handler's use of
     * its answer: the check is no longer in flight on every path, the
     * wizard moves on only when the email is not registered, and otherwise
     * a non-empty, retriable error is shown. The answer is applied to
     * whatever step the wizard is on by then.
     */
    method CompleteEmailCheck(response: EmailResponse) returns (valid: bool)
      requires Valid() && isValidatingEmail
      modifies this
      ensures Valid()
      ensures valid <==> response == Answered(false)
      ensures !isValidatingEmail && emailError == EmailVerdict(response)
      ensures step == if valid then Next(old(step)) else old(step)
      ensures Snapshot() == old(Snapshot()).(step := step, emailError := emailError, isValidatingEmail := false)
    {
      emailError := EmailVerdict(response);
      isValidatingEmail := false;
      valid := emailError.None?;
      if valid {
        step := Next(step);
      }
    }

    /** The step-5 Continue button when the answer arrives before anything else happens. */
    method Continue(response: EmailResponse) returns (valid: bool)
      requires Valid() && step == 5 && IdentityComplete(form) && !isValidatingEmail
      modifies this
      ensures Valid()
      ensures valid <==> response == Answered(false)
      ensures step == (if valid then 6 else 5)
      ensures emailError == EmailVerdict(response)
      ensures !valid ==> emailError.Some? && |emailError.value| > 0
      ensures !isValidatingEmail
      ensures Snapshot() == old(Snapshot()).(step := step, emailError := emailError)
    {
      var _ := BeginEmailCheck();
      valid := CompleteEmailCheck(response);
    }

    /** Step 6: "Buy now" moves to the account step. */
    method AcceptOffer()
      requires Valid() && step == 6 && !showFlashSale
      modifies this
      ensures Valid()
      ensures step == 7
      ensures Snapshot() == old(Snapshot()).(step := 7)
    {
      step := Next(step);
    }

    /** Step 6: "No thanks" records the refusal and shows the flash sale, staying on step 6. */
    method DeclineOffer()
      requires Valid() && step == 6 && !showFlashSale
      modifies this
      ensures Valid()
      ensures step == 6 && showFlashSale && form == old(form).(declinedInitialOffer := true)
      ensures Snapshot() == old(Snapshot()).(showFlashSale := true, form := form, slot := slot)
    {
      UpdateForm(form.(declinedInitialOffer := true));
      showFlashSale := true;
    }

    /** Flash sale: both the discount and the full-price buttons move to the account step; the choice is not kept. */
    method ChooseFlashSaleOption()
      requires Valid() && step == 6 && showFlashSale
      modifies this
      ensures Valid()
      ensures step == 7 && showFlashSale
      ensures Snapshot() == old(Snapshot()).(step := 7)
    {
      step := Next(step);
    }

    method SetPassword(v: string)
      requires Valid() && step == 7
      modifies this
      ensures Valid()
      ensures form == old(form).(password := v)
      ensures Snapshot() == old(Snapshot()).(form := form, slot := slot)
    {
      UpdateForm(form.(password := v));
    }

    method SetConfirmPassword(v: string)
      requires Valid() && step == 7
      modifies this
      ensures Valid()
      ensures form == old(form).(confirmPassword := v)
      ensures Snapshot() == old(Snapshot()).(form := form, slot := slot)
    {
      UpdateForm(form.(confirmPassword := v));
    }

    /** One second of the offer countdown; it never goes below 0 and never changes the step. */
    method TickCountdown()
      requires Valid()
      modifies this
      ensures Valid()
      ensures timeLeft == CountdownTick(old(step), old(showFlashSale), old(timeLeft))
      ensures Snapshot() == old(Snapshot()).(timeLeft := timeLeft)
    {
      if CountdownArmed(step, showFlashSale, timeLeft) {
        timeLeft := timeLeft - 1;
      }
    }

    /** One firing of the seats timer; it never goes below 1 and never changes the step. */
    method TickSeats()
      requires Valid()
      modifies this
      ensures Valid()
      ensures seatsLeft == SeatsTick(old(showFlashSale), old(seatsLeft))
      ensures Snapshot() == old(Snapshot()).(seatsLeft := seatsLeft)
    {
      if SeatsArmed(showFlashSale, seatsLeft) {
        seatsLeft := seatsLeft - 1;
      }
    }

    /**
     * `handleSubmit`: the signup request is sent only when the answers pass
     * the finalize checks; after a created account the quit attempt is
     * requested with the chosen product and the parsed daily usage. The
     * controller's own state does not change.
     */
    method Submit(response: SignupResponse) returns (outcome: SubmitOutcome)
      requires Valid() && step == LastStep
      ensures outcome.NotSent? <==> !ReadyToSubmit(form)
      ensures outcome.NotSent? ==> SubmissionError(form) == Some(outcome.message)
      ensures outcome.SignupFailed? <==> ReadyToSubmit(form) && !response.Created?
      ensures outcome.SignupFailed? ==> outcome.message == SignupErrorMessage(response)
      ensures !outcome.NotSent? ==> outcome.request == SignupRequest(form.email, form.password, form.name)
      ensures !outcome.NotSent? ==>
        outcome.request.password == form.confirmPassword && |outcome.request.password| >= MinPasswordLength
        && outcome.request.email != "" && outcome.request.username != ""
      ensures outcome.QuitAttemptRequested? ==>
        response.Created? && outcome.token == response.token
        && form.productType == Some(outcome.productType)
        && outcome.dailyUsage == ParseOrZero(form.weeklyUsage)
    {
      var error := SubmissionError(form);
      if error.Some? {
        return NotSent(error.value);
      }
      var request := SignupRequest(form.email, form.password, form.name);
      match response
      case Created(_, token) =>
        outcome := QuitAttemptRequested(request, token, form.productType.value, ParseOrZero(form.weeklyUsage));
      case Rejected(_) =>
        outcome := SignupFailed(request, SignupErrorMessage(response));
      case Failed(_) =>
        outcome := SignupFailed(request, SignupErrorMessage(response));
    }
  }

  /** The questions through the contracts alone: two packs a day at $8 for "5 to 10" years. */
  method QuestionsWalkthrough() returns (c: Controller)
    ensures c.Valid() && c.step == 5 && !c.isValidatingEmail && c.form.productType == Some(Cigarettes)
    ensures c.form.weeklyUsage == "2"
  {
    c := new Controller(Missing);
    c.SelectProductType(Cigarettes);
    c.SelectDailyUsage(2);
    c.SelectUnitCost(8);
    c.SelectDuration(1);
    assert NatToString(2) == "2" && NatToString(8) == "8";
    TwoPacksAtEightForFiveToTenYears(c.form);
    assert HabitStats(c.form).totalSpent == 58400;
  }

  /** The identity step filled in with names and an email that each start with a visible character. */
  method FillIdentity(c: Controller, first: string, last: string, email: string)
    requires c.Valid() && c.step == 5 && !c.isValidatingEmail
    requires first != [] && !IsSpace(first[0]) && last != [] && !IsSpace(last[0])
    requires email != [] && !IsSpace(email[0])
    modifies c
    ensures c.Valid() && c.step == 5 && !c.isValidatingEmail && IdentityComplete(c.form)
  {
    c.SetFirstName(first);
    c.SetLastName(last);
    c.SetEmail(email);
    TrimNonEmpty(first);
    TrimNonEmpty(last);
    TrimNonEmpty(email);
  }

  /**
   * The identity step filled in; then a registered email keeps the wizard on
   * step 5 with its error, and a fresh one moves it to the offer.
   */
  method EmailGateWalkthrough(c: Controller, first: string, last: string, email: string)
    requires c.Valid() && c.step == 5 && !c.isValidatingEmail
    requires first != [] && !IsSpace(first[0]) && last != [] && !IsSpace(last[0])
    requires email != [] && !IsSpace(email[0])
    modifies c
    ensures c.Valid() && c.step == 6 && c.emailError == None
  {
    FillIdentity(c, first, last, email);
    var passed := c.Continue(Answered(true));
    assert !passed && c.step == 5 && c.emailError == Some(AlreadyRegistered);
    passed := c.Continue(Answered(false));
    assert passed && c.step == 6 && c.emailError == None;
  }

  /** The offer declined, then five seat ticks leave one seat, and a flash-sale button reaches step 7. */
  method OfferWalkthrough(c: Controller)
    requires c.Valid() && c.step == 6 && !c.showFlashSale
    modifies c
    ensures c.Valid() && c.step == 7 && c.showFlashSale && c.seatsLeft == 1
  {
    c.DeclineOffer();
    var k := 0;
    while k < 5
      invariant 0 <= k <= 5 && c.Valid() && c.step == 6 && c.showFlashSale
      invariant c.seatsLeft == InitialSeats - k
    {
      c.TickSeats();
      k := k + 1;
    }
    assert c.seatsLeft == 1;
    c.TickSeats();
    assert c.seatsLeft == 1 && c.step == 6;
    c.ChooseFlashSaleOption();
    assert c.step == 7;
  }

  /** The account step: a mismatched confirmation sends nothing; a rejection without a message reports "Signup failed". */
  method SubmitWalkthrough(c: Controller) returns (mismatched: SubmitOutcome, rejected: SubmitOutcome)
    requires c.Valid() && c.step == 7
    modifies c
    ensures mismatched.NotSent?
    ensures rejected.NotSent? || (rejected.SignupFailed? && rejected.message == SignupFailedDefault)
  {
    c.SetPassword("correct horse");
    c.SetConfirmPassword("correct horsE");
    mismatched := c.Submit(Created("u1", "t1"));
    c.SetConfirmPassword("correct horse");
    rejected := c.Submit(Rejected(""));
  }
}

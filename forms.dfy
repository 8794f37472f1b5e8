/** Shifting between the five werewolf forms. The two human-and-wolf forms
    are free; the three supernatural forms cost rage dice, and an actor
    without rage (with automated rage on) may shift into them only by
    confirming "Shift Anyway". */
module Forms {
  import opened Common
  import opened WerewolfActor
  import opened Rolls

  datatype Form = Homid | Glabro | Crinos | Hispo | Lupus

  /** The value stored in the actor's `activeForm` for each form. */
  function FormName(f: Form): string
  {
    match f
    case Homid => "homid"
    case Glabro => "glabro"
    case Crinos => "crinos"
    case Hispo => "hispo"
    case Lupus => "lupus"
  }

  /** The form a shift button names, if it names one. */
  function ParseForm(s: string): (r: Option<Form>)
    ensures r.Some? ==> FormName(r.value) == s
    ensures (exists f :: FormName(f) == s) ==> r.Some?
  {
    if s == "homid" then Some(Homid)
    else if s == "glabro" then Some(Glabro)
    else if s == "crinos" then Some(Crinos)
    else if s == "hispo" then Some(Hispo)
    else if s == "lupus" then Some(Lupus)
    else None
  }

  /** The rage dice a shift into `f` rolls: some exactly for the supernatural
      forms, two for crinos and one for the others. */
  function ShiftCost(f: Form): (r: nat)
    ensures r > 0 <==> Supernatural(f)
    ensures r == 2 <==> f == Crinos
    ensures r <= 2
  {
    match f
    case Glabro => 1
    case Hispo => 1
    case Crinos => 2
    case _ => 0
  }

  /** A form that costs rage to take. */
  predicate Supernatural(f: Form)
  {
    f == Glabro || f == Crinos || f == Hispo
  }

  /** What a press of a shift button starts: a direct update, a rage roll whose
      outcome decides the shift, or the "Lost the Wolf" confirmation dialog. */
  datatype ShiftPlan =
    | SetForm(form: Form)
    | RollToShift(target: Form, request: RollRequest)
    | AskToShift(target: Form)

  /** The first half of a shift: decided from the button's form name, the
      automated-rage setting and the actor's rage, before any roll. */
  function PlanShift(newForm: string, automatedRage: bool, rage: int): (plan: ShiftPlan)
    ensures ParseForm(newForm).None? ==> plan == SetForm(Homid)
    ensures newForm == "homid" ==> plan == SetForm(Homid)
    ensures newForm == "lupus" ==> plan == SetForm(Lupus)
    ensures ParseForm(newForm).Some? && Supernatural(ParseForm(newForm).value) ==>
      if automatedRage && rage == 0 then plan == AskToShift(ParseForm(newForm).value)
      else plan.RollToShift? && plan.target == ParseForm(newForm).value
    ensures plan.RollToShift? ==>
      && plan.request.numDice == Num(ShiftCost(plan.target))
      && plan.request.rageDice == Num(ShiftCost(plan.target))
      && ShiftCost(plan.target) > 0
      && plan.request.rollLabel == Str(newForm)
      && plan.request.difficulty == 0
      && plan.request.subtractWillpower == Bool(false)
      && plan.request.consumeRage == Bool(true)
  {
    match ParseForm(newForm)
    case None => SetForm(Homid)
    case Some(f) =>
      if !Supernatural(f) then SetForm(f)
      else if automatedRage && rage == 0 then AskToShift(f)
      else
        var cost := ShiftCost(f);
        RollToShift(f, RollRequest(Num(cost), Str(newForm), 0, Num(cost), Bool(false), Bool(true)))
  }

  /** The "Lost the Wolf" dialog: choosing "Shift Anyway" sets the form;
      cancelling leaves the actor as it is. */
  function InsufficientRage(a: Actor, form: Form, shiftAnyway: bool): (r: Actor)
    ensures r.activeForm == (if shiftAnyway then FormName(form) else a.activeForm)
    ensures r.(activeForm := a.activeForm) == a
  {
    if shiftAnyway then a.(activeForm := FormName(form)) else a
  }

  /** The second half of a shift, given the rage left after the roll and the
      choice made in the dialog (each used only by the plan that needs it). */
  function ResolveShift(a: Actor, plan: ShiftPlan, rageAfterRoll: int, shiftAnyway: bool): (r: Actor)
    ensures r.(activeForm := a.activeForm) == a
    ensures plan.SetForm? ==> r.activeForm == FormName(plan.form)
    ensures plan.RollToShift? ==>
      r.activeForm == if rageAfterRoll > 0 then FormName(plan.target) else a.activeForm
    ensures plan.AskToShift? ==>
      r.activeForm == if shiftAnyway then FormName(plan.target) else a.activeForm
  {
    match plan
    case SetForm(f) => a.(activeForm := FormName(f))
    case RollToShift(f, _) => if rageAfterRoll > 0 then a.(activeForm := FormName(f)) else a
    case AskToShift(f) => InsufficientRage(a, f, shiftAnyway)
  }

  /** A press of the shift button naming `newForm`. Only `activeForm` may
      change, and it changes to a form name or not at all. */
  function ShiftForm(a: Actor, newForm: string, automatedRage: bool, rageAfterRoll: int, shiftAnyway: bool): (r: Actor)
    ensures r.(activeForm := a.activeForm) == a
    ensures r.activeForm == a.activeForm || exists f :: r.activeForm == FormName(f)
  {
    ResolveShift(a, PlanShift(newForm, automatedRage, a.rage), rageAfterRoll, shiftAnyway)
  }

  /** Homid and lupus are taken unconditionally, whatever the rage, the roll
      or the dialog. */
  lemma ShiftToNaturalForm(a: Actor, newForm: string, automatedRage: bool, rageAfterRoll: int, shiftAnyway: bool)
    requires newForm == "homid" || newForm == "lupus"
    ensures ShiftForm(a, newForm, automatedRage, rageAfterRoll, shiftAnyway).activeForm == newForm
  {
  }

  /** A button naming no form shifts the actor to homid. */
  lemma ShiftToUnknownIsHomid(a: Actor, newForm: string, automatedRage: bool, rageAfterRoll: int, shiftAnyway: bool)
    requires forall f :: FormName(f) != newForm
    ensures ShiftForm(a, newForm, automatedRage, rageAfterRoll, shiftAnyway).activeForm == "homid"
  {
  }

  /** A supernatural form is taken after a roll exactly when the roll leaves
      some rage; otherwise the form stays what it was. */
  lemma ShiftAfterRoll(a: Actor, f: Form, automatedRage: bool, rageAfterRoll: int, shiftAnyway: bool)
    requires Supernatural(f)
    requires !(automatedRage && a.rage == 0)
    ensures PlanShift(FormName(f), automatedRage, a.rage).RollToShift?
    ensures ShiftForm(a, FormName(f), automatedRage, rageAfterRoll, shiftAnyway).activeForm ==
      if rageAfterRoll > 0 then FormName(f) else a.activeForm
  {
    assert ParseForm(FormName(f)) == Some(f);
  }

  /** With automated rage on and no rage, nothing is rolled and a supernatural
      form is taken exactly when the player shifts anyway. */
  lemma ShiftWithoutRage(a: Actor, f: Form, rageAfterRoll: int, shiftAnyway: bool)
    requires Supernatural(f) && a.rage == 0
    ensures PlanShift(FormName(f), true, a.rage) == AskToShift(f)
    ensures ShiftForm(a, FormName(f), true, rageAfterRoll, shiftAnyway).activeForm ==
      if shiftAnyway then FormName(f) else a.activeForm
  {
    assert ParseForm(FormName(f)) == Some(f);
  }

  /** Crinos rolls two rage dice; glabro and hispo roll one. */
  lemma ShiftCosts(automatedRage: bool, rage: int)
    requires !(automatedRage && rage == 0)
    ensures PlanShift("crinos", automatedRage, rage).request.rageDice == Num(2)
    ensures PlanShift("glabro", automatedRage, rage).request.rageDice == Num(1)
    ensures PlanShift("hispo", automatedRage, rage).request.rageDice == Num(1)
  {
  }

  /** An actor whose stored form is one of the five keeps a stored form that is
      one of the five after any shift. */
  lemma ShiftKeepsFormValid(a: Actor, newForm: string, automatedRage: bool, rageAfterRoll: int, shiftAnyway: bool)
    requires ParseForm(a.activeForm).Some?
    ensures ParseForm(ShiftForm(a, newForm, automatedRage, rageAfterRoll, shiftAnyway).activeForm).Some?
  {
    var r := ShiftForm(a, newForm, automatedRage, rageAfterRoll, shiftAnyway);
    if r.activeForm != a.activeForm {
      var f :| r.activeForm == FormName(f);
    }
  }

  /** Right after a frenzy begins the actor has rage, so a shift into a
      supernatural form always rolls and never asks for confirmation. */
  lemma FrenzyShiftRolls(a: Actor, f: Form, automatedRage: bool)
    requires Supernatural(f)
    ensures PlanShift(FormName(f), automatedRage, BeginFrenzy(a).rage).RollToShift?
  {
    assert ParseForm(FormName(f)) == Some(f);
  }
}

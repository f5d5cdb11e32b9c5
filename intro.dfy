/**
 * The intro screen (IntroScreen.tsx): a two-step form. The first step takes
 * a name and a phone number and moves on only when both are non-empty; the
 * second picks a class, and the start button hands the three on only when all
 * of them are present.
 */
module Intro {
  import opened GameTypes

  datatype Step = Info | ClassChoice

  /** What the form hands to the session when the game starts. */
  datatype StartRequest = StartRequest(name: string, phoneNumber: string, playerClass: CharacterClass)

  /** The start guard: a name, a phone number and a class, all present. */
  function Request(name: string, phoneNumber: string, cls: Option<CharacterClass>): (r: Option<StartRequest>)
    ensures r.Some? <==> name != "" && phoneNumber != "" && cls.Some?
    ensures r.Some? ==> r.value.name == name && r.value.phoneNumber == phoneNumber && Some(r.value.playerClass) == cls
  {
    if name == "" || phoneNumber == "" || cls.None? then None
    else Some(StartRequest(name, phoneNumber, cls.value))
  }

  /** The form's state cells. */
  class IntroForm {
    var step: Step
    var name: string
    var phoneNumber: string
    var selectedClass: Option<CharacterClass>
    /** Set once the start has been handed on (it fades the screen out). */
    var isEntering: bool

    /** The class step is reached only with both fields filled; a class and the fade only on that step. */
    ghost predicate Valid()
      reads this
    {
      && (step == ClassChoice ==> name != "" && phoneNumber != "")
      && (selectedClass.Some? ==> step == ClassChoice)
      && (isEntering ==> step == ClassChoice && selectedClass.Some?)
    }

    constructor ()
      ensures Valid()
      ensures step == Info && name == "" && phoneNumber == "" && selectedClass == None && !isEntering
    {
      step := Info;
      name := "";
      phoneNumber := "";
      selectedClass := None;
      isEntering := false;
    }

    /** Typing in the name field, which is shown only on the first step. */
    method EditName(value: string)
      requires Valid() && step == Info
      modifies this
      ensures Valid()
      ensures name == value
      ensures step == old(step) && phoneNumber == old(phoneNumber) && selectedClass == old(selectedClass)
      ensures isEntering == old(isEntering)
    {
      name := value;
    }

    /** Typing in the phone field, which is shown only on the first step. */
    method EditPhone(value: string)
      requires Valid() && step == Info
      modifies this
      ensures Valid()
      ensures phoneNumber == value
      ensures step == old(step) && name == old(name) && selectedClass == old(selectedClass)
      ensures isEntering == old(isEntering)
    {
      phoneNumber := value;
    }

    /** The next button: moves to the class step only when both fields are filled. */
    method Next()
      requires Valid()
      modifies this
      ensures Valid()
      ensures step == (if old(name) != "" && old(phoneNumber) != "" then ClassChoice else old(step))
      ensures name == old(name) && phoneNumber == old(phoneNumber) && selectedClass == old(selectedClass)
      ensures isEntering == old(isEntering)
    {
      if name != "" && phoneNumber != "" {
        step := ClassChoice;
      }
    }

    /** One of the three class cards on the second step. */
    method SelectClass(cls: CharacterClass)
      requires Valid() && step == ClassChoice
      modifies this
      ensures Valid()
      ensures selectedClass == Some(cls)
      ensures step == old(step) && name == old(name) && phoneNumber == old(phoneNumber)
      ensures isEntering == old(isEntering)
    {
      selectedClass := Some(cls);
    }

    /**
     * The start button: hands on the name, phone number and class when all are
     * present, and otherwise does nothing. On the class step a chosen class is
     * all it takes.
     */
    method StartGame() returns (request: Option<StartRequest>)
      requires Valid()
      modifies this
      ensures Valid()
      ensures request == Request(old(name), old(phoneNumber), old(selectedClass))
      ensures old(step) == ClassChoice && old(selectedClass).Some? ==> request.Some?
      ensures isEntering == (old(isEntering) || request.Some?)
      ensures step == old(step) && name == old(name) && phoneNumber == old(phoneNumber)
      ensures selectedClass == old(selectedClass)
    {
      if name == "" || phoneNumber == "" || selectedClass.None? {
        request := None;
        return;
      }
      isEntering := true;
      request := Some(StartRequest(name, phoneNumber, selectedClass.value));
    }
  }
}

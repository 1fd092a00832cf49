/** The dispatcher of validacao.js over an abstract form field: the custom
    validators it runs by kind, the validity it then reads, and the invalid
    marker and message text it writes on the field's container. */
module Validation {
  import opened Cpf
  import opened Messages

  /** The custom-validity message validaCPF sets on a rejected number. */
  const CpfRejectedMessage: string := "CPF inválido."

  /** The custom-validity message validaNascimento sets on an under-age date. */
  const UnderAgeMessage: string := "Você deve ser maior de 18 anos para se cadastrar."

  /** What the container's message element shows for a resolution: assigning
      undefined to innerHTML shows the text "undefined"; a TypeError leaves the
      previous text in place. */
  function ShownText(res: Resolution, previous: string): (t: string)
    ensures res.Message? ==> t == res.text
    ensures res == Undefined ==> t == "undefined"
    ensures res == TypeError ==> t == previous
  {
    match res
    case Message(text) => text
    case Undefined => "undefined"
    case TypeError => previous
  }

  /** The custom-validity message after the kind's validator has run; adult stands
      for maiorQue18's verdict on the entered date. The postal-code lookup sets its
      message only when the remote answer arrives, after the dispatcher has read
      the validity, so it changes nothing here. */
  function CustomMessageAfterValidator(kind: string, value: string, current: string, adult: bool): (m: string)
    ensures kind == "cpf" ==> (m == "" <==> CpfAccepted(value))
    ensures kind == "dataNascimento" ==> (m == "" <==> adult)
    ensures kind != "cpf" && kind != "dataNascimento" ==> m == current
  {
    if kind == "dataNascimento" then (if adult then "" else UnderAgeMessage)
    else if kind == "cpf" then (if CpfAccepted(value) then "" else CpfRejectedMessage)
    else current
  }

  /** A form input as the script sees it: its kind, its value, its custom-validity
      message, the validity flags the browser computes, and the invalid marker and
      message text of its container. */
  class Field {
    /** data-tipo */
    const kind: string
    var value: string
    /** The message last passed to setCustomValidity; non-empty means customError. */
    var customMessage: string
    /** Native validity flags, computed by the browser from the value. */
    var valueMissing: bool
    var typeMismatch: bool
    var patternMismatch: bool
    /** Any other native failure (too long, too short, out of range, bad input, step). */
    var otherFailure: bool
    /** The container carries the input-container--invalido class. */
    var containerInvalid: bool
    /** The text of the container's .input-mensagem-erro element. */
    var errorText: string

    constructor (kind: string, value: string,
                 valueMissing: bool, typeMismatch: bool, patternMismatch: bool, otherFailure: bool)
      ensures this.kind == kind && this.value == value
      ensures this.valueMissing == valueMissing && this.typeMismatch == typeMismatch
      ensures this.patternMismatch == patternMismatch && this.otherFailure == otherFailure
      ensures customMessage == "" && !containerInvalid && errorText == ""
    {
      this.kind := kind;
      this.value := value;
      this.valueMissing := valueMissing;
      this.typeMismatch := typeMismatch;
      this.patternMismatch := patternMismatch;
      this.otherFailure := otherFailure;
      customMessage := "";
      containerInvalid := false;
      errorText := "";
    }

    /** The reasons the resolver would find flagged in validity. */
    function Flagged(): (s: set<Reason>)
      reads this
      ensures ValueMissing in s <==> valueMissing
      ensures TypeMismatch in s <==> typeMismatch
      ensures PatternMismatch in s <==> patternMismatch
      ensures CustomError in s <==> customMessage != ""
    {
      (if valueMissing then {ValueMissing} else {})
      + (if typeMismatch then {TypeMismatch} else {})
      + (if patternMismatch then {PatternMismatch} else {})
      + (if customMessage != "" then {CustomError} else {})
    }

    /** validity.valid: no failure of any kind. */
    predicate IsValid()
      reads this
      ensures IsValid() <==>
        !valueMissing && !typeMismatch && !patternMismatch && customMessage == "" && !otherFailure
    {
      Flagged() == {} && !otherFailure
    }

    /** validaCPF: strips the value to its digits, runs the gate and, only when it
      passes, the check digits, and sets the custom validity accordingly. */
    method ValidateCpf()
      modifies this`customMessage
      ensures customMessage == (if CpfAccepted(value) then "" else CpfRejectedMessage)
      ensures customMessage == "" <==> CpfAccepted(value)
    {
      var digits := StripNonDigits(value);
      var ok := CheckNotRepeated(digits);
      if ok {
        ok := CheckStructure(digits);
      }
      customMessage := if ok then "" else CpfRejectedMessage;
    }

    /** validaNascimento, with maiorQue18's verdict given as adult. */
    method ValidateBirthDate(adult: bool)
      modifies this`customMessage
      ensures customMessage == (if adult then "" else UnderAgeMessage)
      ensures customMessage == "" <==> adult
    {
      var mensagem := "";
      if !adult {
        mensagem := UnderAgeMessage;
      }
      customMessage := mensagem;
    }

    /** valida: runs the kind's validator, then clears or sets the container's
      invalid marker and message. thrown reports the resolver's TypeError, after
      which the marker is set and the message text is left as it was. */
    method Validate(adult: bool) returns (thrown: bool)
      modifies this`customMessage, this`containerInvalid, this`errorText
      ensures customMessage == CustomMessageAfterValidator(kind, value, old(customMessage), adult)
      ensures containerInvalid <==> !IsValid()
      ensures IsValid() ==> errorText == "" && !thrown
      ensures !IsValid() ==>
        errorText == ShownText(Resolve(kind, Flagged()), old(errorText))
        && (thrown <==> Resolve(kind, Flagged()) == TypeError)
    {
      if kind == "dataNascimento" {
        ValidateBirthDate(adult);
      } else if kind == "cpf" {
        ValidateCpf();
      }
      thrown := false;
      if IsValid() {
        containerInvalid := false;
        errorText := "";
      } else {
        containerInvalid := true;
        var res := ShowErrorMessage(kind, Flagged());
        match res
        case Message(text) =>
          errorText := text;
        case Undefined =>
          errorText := "undefined";
        case TypeError =>
          thrown := true;
      }
    }
  }

  /** A CPF field holding 123.456.789-09, in any formatting, which the script
      rejects: after the dispatcher runs, the container is marked invalid and
      shows the CPF table's custom-error message. */
  method ValidateRejectedCpfField(value: string) returns (f: Field, thrown: bool)
    requires StripNonDigits(value) == "12345678909"
    ensures f.containerInvalid && !thrown
    ensures f.errorText == "O CPF digitado não é válido."
  {
    f := new Field("cpf", value, false, false, false, false);
    AsWrittenRejectsValidCpf(value);
    thrown := f.Validate(true);
    assert f.Flagged() == {CustomError};
  }
}

# CPF validation and error messages of a registration form

This project models the core of `assets/js/validacao.js`, the client-side
validation script of a registration form, in Dafny, and proves properties of
the model.

- **Cpf** (`cpf.dfy`) models the CPF validator. A CPF is a Brazilian individual
  taxpayer number. The validator strips the value to its digits. It checks that
  the result has 11 digits and is not on a fixed denylist. It then recomputes
  the two modulo-11 check digits. The denylist walk and the check-digit loop
  with its recursion on the multiplier are methods proved against predicates
  that state the rule directly. The model keeps the script's `confirmaDigito`,
  which never yields 0. It also models the published CPF rule beside it, so the
  two can be compared.
- **Messages** (`messages.dfy`) models the error-message resolver. It holds the
  reason order, the per-kind message table, and `mostraMensagemDeErro`, which
  overwrites the message on every flagged reason in order. The loop is proved
  equal to a priority rule: the latest flagged reason wins. A kind without a
  table throws a TypeError, and a missing entry yields undefined.
- **Validation** (`validation.dfy`) models the dispatcher `valida` and the
  validators `validaCPF` and `validaNascimento`. A form input is a `Field`
  object. Its kind and value are fixed. The browser's validity flags are
  inputs. The methods update its custom-validity message, the container's
  invalid marker and the container's message text.

The published CPF rule maps remainders 0 and 1 to check digit 0. The script
does not, and the model follows the script (see Findings). The resolver keeps
the LAST flagged reason in order, not the first. For a missing table entry it
yields undefined, not an empty message, and the container then shows the text
"undefined". The model follows the code in both.

## Model

| member | source | states |
|---|---|---|
| `Cpf.StripNonDigits` | assets/js/validacao.js:104 | the result holds only digits and is no longer than the input |
| `Cpf.StripAppend` | assets/js/validacao.js:104 | stripping a concatenation is the concatenation of the stripped parts, so digits keep their order |
| `Cpf.StripKeepsDigits` | assets/js/validacao.js:104 | a string of digits only is left unchanged |
| `Cpf.StripIdempotent` | assets/js/validacao.js:104 | stripping twice is stripping once |
| `Cpf.StripOfNonDigits` | assets/js/validacao.js:104 | a string with no digit strips to the empty string |
| `Cpf.CheckNotRepeated` | assets/js/validacao.js:114-140 | the flag stays true exactly when the string has 11 characters and is not one of the 11 listed strings |
| `Cpf.DenylistEntriesHaveElevenDigits` | assets/js/validacao.js:115-127 | every listed string has 11 digits |
| `Cpf.WeightedSum` | assets/js/validacao.js:158-161 | the weighted digit sum is never negative while every weight is positive |
| `Cpf.WeightedSumStep` | assets/js/validacao.js:158-161 | each loop step adds the next digit times its weight |
| `Cpf.ConfirmDigit` | assets/js/validacao.js:170-172 | the confirmed value lies in 1..11 and cancels the sum modulo 11 |
| `Cpf.RemainderComplementCancels` | assets/js/validacao.js:171 | adding 11 minus the remainder brings the sum to a multiple of 11 |
| `Cpf.CheckDigitsFrom` | assets/js/validacao.js:148-168 | the result is true exactly when the check digit at every multiplier from the given one up to 11 matches its weighted sum; the recursion ends at multiplier 12 |
| `Cpf.CheckDigitMatches` | assets/js/validacao.js:163 | the loose comparison of a check digit with the confirmed value; a match needs a non-zero digit and a sum whose remainder by 11 is at least 2 |
| `Cpf.CheckStructure` | assets/js/validacao.js:142-146 | the result is true exactly when both check digits (multipliers 10 and 11) match |
| `Cpf.FirstCheckDigitFormula` | assets/js/validacao.js:148-163 | the first check digit matches iff digit 9 equals 11 - (10·d0 + 9·d1 + … + 2·d8) % 11 |
| `Cpf.SecondCheckDigitFormula` | assets/js/validacao.js:148-164 | the second check digit matches iff digit 10 equals 11 - (11·d0 + 10·d1 + … + 2·d9) % 11 |
| `Cpf.FirstCheckDigitSum` | assets/js/validacao.js:155-161 | the first sum written out term by term |
| `Cpf.SecondCheckDigitSum` | assets/js/validacao.js:155-161 | the second sum written out term by term |
| `Cpf.ZeroCheckDigitRejected` | assets/js/validacao.js:163-172 | a check digit 0 never matches, and nothing matches when the confirmed value is 10 or 11 |
| `Cpf.CpfAccepted` | assets/js/validacao.js:103-111 | validaCPF's verdict: the stripped value passes the gate and, only then, both check digits; an accepted value has 11 digits and no check digit 0 |
| `Cpf.CpfAcceptedIgnoresFormatting` | assets/js/validacao.js:103-107 | the verdict on a value equals the verdict on its digits |
| `Cpf.CpfAcceptedIgnoresSeparator` | assets/js/validacao.js:103-107 | inserting non-digit characters anywhere does not change the verdict |
| `Cpf.AsWrittenAcceptsValidCpf` | assets/js/validacao.js:103-112 | 111.444.777-35, in any formatting, is accepted by the script and by the published rule |
| `Cpf.AsWrittenRejectsValidCpf` | assets/js/validacao.js:148-172 | 123.456.789-09 is valid under the published rule but rejected by the script |
| `Cpf.AsWrittenBaseWithoutCompletion` | assets/js/validacao.js:148-172 | no 11-digit number that starts 123456789 is accepted by the script |
| `Cpf.AsWrittenIsStandardWithoutZeros` | assets/js/validacao.js:163-172 | the script accepts a value iff the published rule accepts it and neither check digit is 0 |
| `Cpf.StandardCheckDigit` | assets/js/validacao.js:170-172 | the corrected check digit is a single digit 0..9; a non-zero one cancels the sum modulo 11, and 0 comes only from remainders 0 and 1 |
| `Cpf.Complete` | assets/js/validacao.js:148-172 | under the corrected rule every nine-digit base has a completion that passes both checks |
| `Cpf.CompleteUnique` | assets/js/validacao.js:148-172 | under the corrected rule that completion is the only 11-digit number on its base that passes both checks |
| `Cpf.DigitValue` | assets/js/validacao.js:159 | a digit character converts to a number in 0..9 |
| `Cpf.DigitChar` | assets/js/validacao.js:163 | the character of a value 0..9 is a digit that converts back to that value |
| `Messages.Rank` | assets/js/validacao.js:18-23 | each reason's position in the visiting order |
| `Messages.Lookup` | assets/js/validacao.js:75 | a table entry gives its message; a missing entry gives undefined |
| `Messages.Winner` | assets/js/validacao.js:71-79 | the winning reason is flagged and no flagged reason comes later in the order |
| `Messages.Resolve` | assets/js/validacao.js:71-79 | the resolver's result as a priority rule; it is the empty message exactly when nothing is flagged, and a TypeError exactly when something is flagged on a kind without a table |
| `Messages.TableEntriesNonEmpty` | assets/js/validacao.js:25-63 | every message in the table is non-empty |
| `Messages.ShowErrorMessage` | assets/js/validacao.js:71-79 | the overwrite loop yields exactly the priority rule: empty with nothing flagged, a TypeError for a kind without a table, else the entry of the latest flagged reason |
| `Messages.LatestIsWinner` | assets/js/validacao.js:73-77 | a flagged reason overwrites every earlier one |
| `Messages.ResolveNothingFlagged` | assets/js/validacao.js:72-78 | nothing flagged gives the empty message |
| `Messages.ResolveLatestWins` | assets/js/validacao.js:71-79 | the latest flagged reason in order decides the message |
| `Messages.ResolveValueMissingAlone` | assets/js/validacao.js:25-63 | every kind in the table has a non-empty message for a missing value |
| `Messages.ResolveUndefinedExamples` | assets/js/validacao.js:25-79 | a name with a type mismatch, and a CPF with a missing value and a pattern mismatch, yield undefined; a CPF's custom error beats its missing value |
| `Messages.ResolveUnknownKindThrows` | assets/js/validacao.js:75 | a kind without a table throws exactly when some reason is flagged |
| `Validation.ShownText` | assets/js/validacao.js:13-14 | a message is shown as is, undefined is shown as "undefined", and a TypeError leaves the old text |
| `Validation.CustomMessageAfterValidator` | assets/js/validacao.js:4-6 | a CPF field's custom message is empty iff the CPF is accepted, a birth date's iff the person is an adult, and every other kind (the postal code included) keeps its message |
| `Validation.Field.Flagged` | assets/js/validacao.js:73-74 | each reason is flagged exactly when its validity flag is set; the custom error is flagged exactly when the custom message is non-empty |
| `Validation.Field.IsValid` | assets/js/validacao.js:8 | validity.valid holds exactly when no native flag is set and the custom message is empty |
| `Validation.Field.ValidateCpf` | assets/js/validacao.js:103-112 | the custom message becomes empty iff the value is accepted, and "CPF inválido." otherwise; nothing else changes |
| `Validation.Field.ValidateBirthDate` | assets/js/validacao.js:81-90 | the custom message becomes empty iff the age check passes, and the under-age message otherwise |
| `Validation.Field.Validate` | assets/js/validacao.js:1-16 | after the kind's validator, a valid field's marker is cleared and its text emptied; an invalid field is marked and shows the resolver's message; a TypeError is reported and leaves the text; kind, value and flags are unchanged |
| `Validation.ValidateRejectedCpfField` | assets/js/validacao.js:1-16 | a CPF field holding 123.456.789-09 ends up marked invalid with the CPF table's custom-error message |

## Left out

- `recuperarCEP` and `preencheCamposComCEP` (assets/js/validacao.js:174-212): they make a remote network request and write into other fields when the answer arrives. The dispatcher reads validity before any answer comes back, so `Validation.Validate` leaves a postal-code field's custom message as it was.
- `maiorQue18` (assets/js/validacao.js:92-101): it depends on the clock and on JavaScript's date arithmetic. Its verdict is the `adult` parameter of `Validation.Field.ValidateBirthDate` and `Validation.Field.Validate`.
- How the browser computes `valueMissing`, `typeMismatch`, `patternMismatch` and the other native failures: they are fields of `Field`, set by the constructor and never changed.
- DOM operations: the container's class becomes the `containerInvalid` flag, and the message element's `innerHTML` becomes the `errorText` string.
- Cpf.CheckDigitsFrom: modelled only on 11-character digit strings, because its one caller reaches it only after the gate; on shorter strings the script would read missing characters as NaN or 0.
- Cpf.ConfirmDigit: requires a non-negative sum, because every sum the script forms is non-negative and JavaScript's remainder differs from Dafny's for negative operands.
- Cpf.CheckNotRepeated: counts Dafny characters, where JavaScript counts UTF-16 code units; the two agree on the digit strings the script passes it.
- Kinds that name a built-in object property (such as `constructor`): the model treats the validator and message tables as plain maps, so it ignores what JavaScript's prototype lookup would find.
- The native `validity.valid` flag is modelled as "no flag set"; its other components are one `otherFailure` field.

## Findings

| source | as written | input that shows it | evidently intended | confidence | as-written member | corrected member |
|---|---|---|---|---|---|---|
| assets/js/validacao.js:170-172 | `confirmaDigito` returns 11 - soma % 11, so remainders 0 and 1 give 11 and 10, which no digit equals; every CPF with a check digit 0 is rejected | 123.456.789-09: the first sum is 210, remainder 1, published check digit 0 | check digit 0 when the remainder is 0 or 1, else 11 - remainder | high; not executed | `Cpf.AsWrittenRejectsValidCpf` | `Cpf.StandardCheckDigit` |

`Cpf.AsWrittenIsStandardWithoutZeros` states the gap exactly. The script accepts
a number iff the published rule accepts it and neither check digit is 0. The
corrected rule is `Cpf.StandardCheckDigit`, used by `Cpf.StandardCpfAccepted`
and `Cpf.Complete`. `Validation.Field.ValidateCpf` keeps the script's rule,
because it models what the page does.
